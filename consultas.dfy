/** The appointment router (`/consultas`): its status normaliser, the
    create / partial-update / delete handlers over the appointment table, and
    the dashboard counts. */
module ConsultasRouter {
  import opened Common
  import opened Text
  import opened Normalizacao
  import opened Grafias
  import opened Models
  import opened Schemas
  import opened Estatisticas

  // ---------------------------------------------------------------- status

  /** The accepted spellings of an appointment status and the value each stands for. */
  const MapaStatus: map<string, string> := map[
    "agendada" := "agendada",
    "AGENDADA" := "agendada",
    "em_andamento" := "em_andamento",
    "EM_ANDAMENTO" := "em_andamento",
    "em andamento" := "em_andamento",
    "Em_Andamento" := "em_andamento",
    "concluida" := "concluida",
    "CONCLUIDA" := "concluida",
    "concluída" := "concluida",
    "cancelada" := "cancelada",
    "CANCELADA" := "cancelada"
  ]

  const StatusValidos: seq<string> := ["agendada", "em_andamento", "concluida", "cancelada"]

  lemma MapaStatusBemFormado()
    ensures BemFormado(MapaStatus, StatusValidos, "agendada")
  {
  }

  /** The entries the capitalised spellings share with their lower-case forms. */
  lemma EntradasStatus()
    ensures "agendada" in MapaStatus && MapaStatus["agendada"] == MapaStatus["AGENDADA"]
    ensures "em_andamento" in MapaStatus && MapaStatus["em_andamento"] == MapaStatus["EM_ANDAMENTO"]
    ensures "em_andamento" in MapaStatus && MapaStatus["em_andamento"] == MapaStatus["Em_Andamento"]
    ensures "concluida" in MapaStatus && MapaStatus["concluida"] == MapaStatus["CONCLUIDA"]
    ensures "cancelada" in MapaStatus && MapaStatus["cancelada"] == MapaStatus["CANCELADA"]
  {
  }

  lemma Status_AGENDADA(k: string)
    requires k == "AGENDADA"
    ensures Forma(k) in MapaStatus && MapaStatus[Forma(k)] == MapaStatus[k]
  {
    Forma_AGENDADA(k);
    EntradasStatus();
  }

  lemma Status_EM_ANDAMENTO(k: string)
    requires k == "EM_ANDAMENTO"
    ensures Forma(k) in MapaStatus && MapaStatus[Forma(k)] == MapaStatus[k]
  {
    Forma_EM_ANDAMENTO(k);
    EntradasStatus();
  }

  lemma Status_Em_Andamento(k: string)
    requires k == "Em_Andamento"
    ensures Forma(k) in MapaStatus && MapaStatus[Forma(k)] == MapaStatus[k]
  {
    Forma_Em_Andamento(k);
    EntradasStatus();
  }

  lemma Status_CONCLUIDA(k: string)
    requires k == "CONCLUIDA"
    ensures Forma(k) in MapaStatus && MapaStatus[Forma(k)] == MapaStatus[k]
  {
    Forma_CONCLUIDA(k);
    EntradasStatus();
  }

  lemma Status_CANCELADA(k: string)
    requires k == "CANCELADA"
    ensures Forma(k) in MapaStatus && MapaStatus[Forma(k)] == MapaStatus[k]
  {
    Forma_CANCELADA(k);
    EntradasStatus();
  }

  lemma StatusMaiusculos(k: string)
    requires k in {"AGENDADA", "EM_ANDAMENTO", "Em_Andamento", "CONCLUIDA", "CANCELADA"}
    ensures Forma(k) in MapaStatus && MapaStatus[Forma(k)] == MapaStatus[k]
  {
    if k == "AGENDADA" { Status_AGENDADA(k); }
    else if k == "EM_ANDAMENTO" { Status_EM_ANDAMENTO(k); }
    else if k == "Em_Andamento" { Status_Em_Andamento(k); }
    else if k == "CONCLUIDA" { Status_CONCLUIDA(k); }
    else if k == "CANCELADA" { Status_CANCELADA(k); }
  }

  lemma StatusMinusculosAbertos(k: string)
    requires k in {"agendada", "em_andamento", "em andamento"}
    ensures Forma(k) == k
  {
    if k == "agendada" { FormaLiteral(k, "agendada"); }
    else if k == "em_andamento" { FormaLiteral(k, "em_andamento"); }
    else if k == "em andamento" { FormaLiteral(k, "em andamento"); }
  }

  lemma StatusMinusculosFechados(k: string)
    requires k in {"concluida", "concluída", "cancelada"}
    ensures Forma(k) == k
  {
    if k == "concluida" { FormaLiteral(k, "concluida"); }
    else if k == "concluída" { FormaLiteral(k, "concluída"); }
    else if k == "cancelada" { FormaLiteral(k, "cancelada"); }
  }

  /** Every spelling in the table means the same as its `strip().lower()` form. */
  lemma MapaStatusCoerente()
    ensures Coerente(MapaStatus)
  {
    forall k | k in MapaStatus
      ensures Forma(k) in MapaStatus && MapaStatus[Forma(k)] == MapaStatus[k]
    {
      if k in {"AGENDADA", "EM_ANDAMENTO", "Em_Andamento", "CONCLUIDA", "CANCELADA"} {
        StatusMaiusculos(k);
      } else if k in {"agendada", "em_andamento", "em andamento"} {
        StatusMinusculosAbertos(k);
      } else {
        StatusMinusculosFechados(k);
      }
    }
  }

  /** `normalizar_status_consulta`: always one of the four appointment
      statuses, "agendada" for an empty or missing value. */
  function NormalizarStatusConsulta(value: string): (r: string)
    ensures r in StatusValidos
    ensures value == "" ==> r == "agendada"
  {
    MapaStatusBemFormado();
    NormalizarValido(value, MapaStatus, StatusValidos, "agendada");
    Normalizar(value, MapaStatus, StatusValidos, "agendada")
  }

  /** The status depends only on the trimmed, lower-cased input: a spelling
      the table knows gives its entry, anything else gives "agendada". */
  lemma NormalizarStatusConsultaPelaForma(value: string)
    ensures NormalizarStatusConsulta(value)
         == if Forma(value) in MapaStatus then MapaStatus[Forma(value)] else "agendada"
  {
    MapaStatusBemFormado();
    MapaStatusCoerente();
    NormalizarPelaForma(value, MapaStatus, StatusValidos, "agendada");
  }

  lemma NormalizarStatusConsultaIdempotente(value: string)
    ensures NormalizarStatusConsulta(NormalizarStatusConsulta(value)) == NormalizarStatusConsulta(value)
  {
    MapaStatusBemFormado();
    NormalizarIdempotente(value, MapaStatus, StatusValidos, "agendada");
  }

  // ---------------------------------------------------------------- handlers

  /** Every stored appointment carries a canonical status. */
  ghost predicate ConsultasCanonicas(db: Database)
    reads db
  {
    forall id | id in db.consultas :: db.consultas[id].status in StatusValidos
  }

  /** `criar_consulta`: the owner is checked first, then the animal; on
      success one row with a fresh id, the normalised status and the other
      fields copied from the payload is stored. */
  method CriarConsulta(db: Database, data: ConsultaCreate) returns (r: Result<Consulta>)
    requires db.Valid()
    modifies db`consultas, db`proximaConsulta
    ensures db.Valid()
    ensures data.dono_id !in db.donos ==> r == Err(404, "Dono não encontrado")
    ensures data.dono_id in db.donos && data.animal_id !in db.animais ==> r == Err(404, "Animal não encontrado")
    ensures data.dono_id in db.donos && data.animal_id in db.animais ==> r.Ok?
    ensures r.Err? ==> db.consultas == old(db.consultas)
    ensures r.Ok? ==>
      && data.dono_id in db.donos && data.animal_id in db.animais
      && r.value.id !in old(db.consultas)
      && db.consultas == old(db.consultas)[r.value.id := r.value]
      && r.value == Consulta(r.value.id, data.data_hora, data.motivo, data.observacoes,
                             NormalizarStatusConsulta(data.status), data.valor, data.dono_id, data.animal_id)
    ensures old(ConsultasCanonicas(db)) ==> ConsultasCanonicas(db)
  {
    if data.dono_id !in db.donos {
      return Err(404, "Dono não encontrado");
    }
    if data.animal_id !in db.animais {
      return Err(404, "Animal não encontrado");
    }
    var status_normalizado := NormalizarStatusConsulta(data.status);
    var id := db.proximaConsulta;
    var consulta := Consulta(id, data.data_hora, data.motivo, data.observacoes, status_normalizado,
                             data.valor, data.dono_id, data.animal_id);
    db.consultas := db.consultas[id := consulta];
    db.proximaConsulta := id + 1;
    return Ok(consulta);
  }

  /** A client that leaves `status` out gets the schema default, and the
      normaliser keeps it: the appointment is stored as "agendada". */
  lemma StatusPadraoConsulta(data_hora: DataHora, motivo: string, dono_id: int, animal_id: int)
    ensures NormalizarStatusConsulta(NovaConsulta(data_hora, motivo, dono_id, animal_id).status) == "agendada"
  {
    MapaStatusBemFormado();
  }

  /** `POST /consultas` with no `status` in the body: with both parents stored
      it succeeds and the new row is "agendada". */
  method CriarConsultaSemStatus(db: Database, data_hora: DataHora, motivo: string, dono_id: int, animal_id: int)
    returns (r: Result<Consulta>)
    requires db.Valid()
    modifies db`consultas, db`proximaConsulta
    ensures db.Valid()
    ensures dono_id in db.donos && animal_id in db.animais ==>
      && r.Ok? && r.value.status == "agendada"
      && r.value.id !in old(db.consultas) && db.consultas == old(db.consultas)[r.value.id := r.value]
    ensures r.Err? ==> db.consultas == old(db.consultas)
  {
    StatusPadraoConsulta(data_hora, motivo, dono_id, animal_id);
    r := CriarConsulta(db, NovaConsulta(data_hora, motivo, dono_id, animal_id));
  }

  /** One `setattr(consulta, campo, valor)` of the update loop. */
  datatype CampoConsulta =
    | DataHoraConsulta(data_hora: DataHora)
    | MotivoConsulta(motivo: string)
    | ObservacoesConsulta(observacoes: Option<string>)
    | StatusConsulta(status: string)
    | ValorConsulta(valor: Option<int>)

  function Setattr(c: Consulta, campo: CampoConsulta): Consulta {
    match campo
    case DataHoraConsulta(v) => c.(data_hora := v)
    case MotivoConsulta(v) => c.(motivo := v)
    case ObservacoesConsulta(v) => c.(observacoes := v)
    case StatusConsulta(v) => c.(status := v)
    case ValorConsulta(v) => c.(valor := v)
  }

  /** `dados.dict(exclude_unset=True)` after normalisation: the supplied
      fields, in schema order, with the status already normalised. */
  function DadosAtualizacao(dados: ConsultaUpdate): seq<CampoConsulta> {
    (if dados.data_hora.Presente? then [DataHoraConsulta(dados.data_hora.value)] else [])
    + (if dados.motivo.Presente? then [MotivoConsulta(dados.motivo.value)] else [])
    + (if dados.observacoes.Presente? then [ObservacoesConsulta(dados.observacoes.value)] else [])
    + (if dados.status.Presente? then [StatusConsulta(NormalizarStatusConsulta(TextoOuVazio(dados.status.value)))] else [])
    + (if dados.valor.Presente? then [ValorConsulta(dados.valor.value)] else [])
  }

  /** The row after the `setattr` calls for `campos`, in order. */
  function AplicarCampos(c: Consulta, campos: seq<CampoConsulta>): Consulta
    decreases |campos|
  {
    if campos == [] then c else AplicarCampos(Setattr(c, campos[0]), campos[1..])
  }

  /** The updated row field by field: a supplied field takes its (normalised)
      new value, an omitted one keeps the stored value. */
  function Atualizada(c: Consulta, dados: ConsultaUpdate): (r: Consulta)
    ensures r.id == c.id && r.dono_id == c.dono_id && r.animal_id == c.animal_id
    ensures dados.status.Ausente? ==> r.status == c.status
    ensures dados.status.Presente? ==> r.status in StatusValidos
  {
    Consulta(
      c.id,
      if dados.data_hora.Presente? then dados.data_hora.value else c.data_hora,
      if dados.motivo.Presente? then dados.motivo.value else c.motivo,
      if dados.observacoes.Presente? then dados.observacoes.value else c.observacoes,
      if dados.status.Presente? then NormalizarStatusConsulta(TextoOuVazio(dados.status.value)) else c.status,
      if dados.valor.Presente? then dados.valor.value else c.valor,
      c.dono_id,
      c.animal_id)
  }

  lemma {:induction false} AplicarConcat(c: Consulta, a: seq<CampoConsulta>, b: seq<CampoConsulta>)
    ensures AplicarCampos(c, a + b) == AplicarCampos(AplicarCampos(c, a), b)
    decreases |a|
  {
    if a == [] {
      assert a + b == b;
    } else {
      assert (a + b)[0] == a[0];
      assert (a + b)[1..] == a[1..] + b;
      AplicarConcat(Setattr(c, a[0]), a[1..], b);
    }
  }

  /** The row after the `setattr` for a field that is present at most once. */
  function Passo(c: Consulta, campos: seq<CampoConsulta>): Consulta {
    if campos == [] then c else Setattr(c, campos[0])
  }

  lemma AplicarUm(c: Consulta, campos: seq<CampoConsulta>)
    requires |campos| <= 1
    ensures AplicarCampos(c, campos) == Passo(c, campos)
  {
    if campos != [] {
      assert campos[1..] == [];
    }
  }

  lemma AplicarCinco(c: Consulta, p1: seq<CampoConsulta>, p2: seq<CampoConsulta>, p3: seq<CampoConsulta>,
                     p4: seq<CampoConsulta>, p5: seq<CampoConsulta>)
    requires |p1| <= 1 && |p2| <= 1 && |p3| <= 1 && |p4| <= 1 && |p5| <= 1
    ensures AplicarCampos(c, p1 + p2 + p3 + p4 + p5)
         == Passo(Passo(Passo(Passo(Passo(c, p1), p2), p3), p4), p5)
  {
    AplicarConcat(c, p1 + p2 + p3 + p4, p5);
    AplicarConcat(c, p1 + p2 + p3, p4);
    AplicarConcat(c, p1 + p2, p3);
    AplicarConcat(c, p1, p2);
    AplicarUm(c, p1);
    var c1 := Passo(c, p1);
    AplicarUm(c1, p2);
    var c2 := Passo(c1, p2);
    AplicarUm(c2, p3);
    var c3 := Passo(c2, p3);
    AplicarUm(c3, p4);
    var c4 := Passo(c3, p4);
    AplicarUm(c4, p5);
  }

  /** Running the `setattr` loop over the update dictionary yields exactly the
      field-by-field update. */
  lemma AplicarDadosAtualizacao(c: Consulta, dados: ConsultaUpdate)
    ensures AplicarCampos(c, DadosAtualizacao(dados)) == Atualizada(c, dados)
  {
    var p1 := if dados.data_hora.Presente? then [DataHoraConsulta(dados.data_hora.value)] else [];
    var p2 := if dados.motivo.Presente? then [MotivoConsulta(dados.motivo.value)] else [];
    var p3 := if dados.observacoes.Presente? then [ObservacoesConsulta(dados.observacoes.value)] else [];
    var p4 := if dados.status.Presente? then [StatusConsulta(NormalizarStatusConsulta(TextoOuVazio(dados.status.value)))] else [];
    var p5 := if dados.valor.Presente? then [ValorConsulta(dados.valor.value)] else [];
    AplicarCinco(c, p1, p2, p3, p4, p5);
  }

  /** `atualizar_consulta`: 404 on a missing id; otherwise the `setattr` loop
      over the supplied fields, which leaves id, owner and animal untouched. */
  method AtualizarConsulta(db: Database, consulta_id: int, dados: ConsultaUpdate) returns (r: Result<Consulta>)
    requires db.Valid()
    modifies db`consultas
    ensures db.Valid()
    ensures consulta_id !in old(db.consultas) ==> r == Err(404, "Consulta não encontrada") && db.consultas == old(db.consultas)
    ensures consulta_id in old(db.consultas) ==>
      && r == Ok(Atualizada(old(db.consultas[consulta_id]), dados))
      && db.consultas == old(db.consultas)[consulta_id := r.value]
    ensures old(ConsultasCanonicas(db)) ==> ConsultasCanonicas(db)
  {
    if consulta_id !in db.consultas {
      return Err(404, "Consulta não encontrada");
    }
    var consulta := db.consultas[consulta_id];
    var update_data := DadosAtualizacao(dados);
    var i := 0;
    while i < |update_data|
      invariant 0 <= i <= |update_data|
      invariant db.consultas == old(db.consultas)
      invariant AplicarCampos(consulta, update_data[i..]) == AplicarCampos(db.consultas[consulta_id], update_data)
    {
      assert update_data[i..][1..] == update_data[i + 1..];
      consulta := Setattr(consulta, update_data[i]);
      i := i + 1;
    }
    assert update_data[i..] == [];
    AplicarDadosAtualizacao(db.consultas[consulta_id], dados);
    db.consultas := db.consultas[consulta_id := consulta];
    return Ok(consulta);
  }

  /** `deletar_consulta`: 404 on a missing id; otherwise exactly that row goes. */
  method DeletarConsulta(db: Database, consulta_id: int) returns (r: Result<()>)
    requires db.Valid()
    modifies db`consultas
    ensures db.Valid()
    ensures consulta_id !in old(db.consultas) ==> r == Err(404, "Consulta não encontrada") && db.consultas == old(db.consultas)
    ensures consulta_id in old(db.consultas) ==> r == Ok(()) && db.consultas == old(db.consultas) - {consulta_id}
    ensures old(ConsultasCanonicas(db)) ==> ConsultasCanonicas(db)
  {
    if consulta_id !in db.consultas {
      return Err(404, "Consulta não encontrada");
    }
    db.consultas := db.consultas - {consulta_id};
    return Ok(());
  }

  // ---------------------------------------------------------------- dashboard

  datatype StatsConsultas = StatsConsultas(
    total_consultas: int, agendadas: int, concluidas: int, canceladas: int, em_andamento: int)

  function StatusDasConsultas(consultas: map<int, Consulta>): (m: map<int, string>)
    ensures m.Keys == consultas.Keys
    ensures forall id | id in m :: m[id] == consultas[id].status
  {
    map id | id in consultas :: consultas[id].status
  }

  /** `stats_dashboard`: the total is the row count, each bucket is the set of
      rows with exactly that status, and the buckets never add up to more than
      the total. */
  function StatsDashboard(db: Database): (r: StatsConsultas)
    reads db
    ensures r.total_consultas == |db.consultas|
    ensures r.agendadas == |set id | id in db.consultas && db.consultas[id].status == "agendada"|
    ensures r.concluidas == |set id | id in db.consultas && db.consultas[id].status == "concluida"|
    ensures r.canceladas == |set id | id in db.consultas && db.consultas[id].status == "cancelada"|
    ensures r.em_andamento == |set id | id in db.consultas && db.consultas[id].status == "em_andamento"|
    ensures r.agendadas + r.concluidas + r.canceladas + r.em_andamento <= r.total_consultas
  {
    var status := StatusDasConsultas(db.consultas);
    GruposSomam(status, "agendada", "concluida", "cancelada", "em_andamento");
    assert ComStatus(status, "agendada") == set id | id in db.consultas && db.consultas[id].status == "agendada";
    assert ComStatus(status, "concluida") == set id | id in db.consultas && db.consultas[id].status == "concluida";
    assert ComStatus(status, "cancelada") == set id | id in db.consultas && db.consultas[id].status == "cancelada";
    assert ComStatus(status, "em_andamento") == set id | id in db.consultas && db.consultas[id].status == "em_andamento";
    StatsConsultas(
      |db.consultas|,
      |ComStatus(status, "agendada")|,
      |ComStatus(status, "concluida")|,
      |ComStatus(status, "cancelada")|,
      |ComStatus(status, "em_andamento")|)
  }

  /** When every stored status is canonical the four buckets partition the table. */
  lemma StatsDashboardCompletas(db: Database)
    requires ConsultasCanonicas(db)
    ensures var r := StatsDashboard(db);
      r.agendadas + r.concluidas + r.canceladas + r.em_andamento == r.total_consultas
  {
    var status := StatusDasConsultas(db.consultas);
    GruposSomam(status, "agendada", "concluida", "cancelada", "em_andamento");
  }
}
