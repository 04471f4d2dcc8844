/** The grooming router (`/banho-tosa`): its two enum normalisers, the
    create / partial-update / delete handlers over the service table, and the
    dashboard counts. */
module BanhoTosaRouter {
  import opened Common
  import opened Text
  import opened Normalizacao
  import opened Grafias
  import opened Models
  import opened Schemas
  import opened Estatisticas

  // ---------------------------------------------------------------- status

  /** The accepted spellings of a service status and the value each stands for. */
  const MapaStatus: map<string, string> := map[
    "agendado" := "agendado",
    "AGENDADO" := "agendado",
    "em_andamento" := "em_andamento",
    "EM_ANDAMENTO" := "em_andamento",
    "em andamento" := "em_andamento",
    "Em_Andamento" := "em_andamento",
    "concluido" := "concluido",
    "CONCLUIDO" := "concluido",
    "concluído" := "concluido",
    "cancelado" := "cancelado",
    "CANCELADO" := "cancelado"
  ]

  const StatusValidos: seq<string> := ["agendado", "em_andamento", "concluido", "cancelado"]

  lemma MapaStatusBemFormado()
    ensures BemFormado(MapaStatus, StatusValidos, "agendado")
  {
  }

  /** The entries the capitalised spellings share with their lower-case forms. */
  lemma EntradasStatus()
    ensures "agendado" in MapaStatus && MapaStatus["agendado"] == MapaStatus["AGENDADO"]
    ensures "em_andamento" in MapaStatus && MapaStatus["em_andamento"] == MapaStatus["EM_ANDAMENTO"]
    ensures "em_andamento" in MapaStatus && MapaStatus["em_andamento"] == MapaStatus["Em_Andamento"]
    ensures "concluido" in MapaStatus && MapaStatus["concluido"] == MapaStatus["CONCLUIDO"]
    ensures "cancelado" in MapaStatus && MapaStatus["cancelado"] == MapaStatus["CANCELADO"]
  {
  }

  lemma Status_AGENDADO(k: string)
    requires k == "AGENDADO"
    ensures Forma(k) in MapaStatus && MapaStatus[Forma(k)] == MapaStatus[k]
  {
    Forma_AGENDADO(k);
    EntradasStatus();
  }

  lemma Status_EM_ANDAMENTO(k: string)
    requires k == "EM_ANDAMENTO"
    ensures Forma(k) in MapaStatus && MapaStatus[Forma(k)] == MapaStatus[k]
  {
    Forma_EM_ANDAMENTO(k);
    EntradasStatus();
  }

  lemma Status_Em_Andamento(k: string)
    requires k == "Em_Andamento"
    ensures Forma(k) in MapaStatus && MapaStatus[Forma(k)] == MapaStatus[k]
  {
    Forma_Em_Andamento(k);
    EntradasStatus();
  }

  lemma Status_CONCLUIDO(k: string)
    requires k == "CONCLUIDO"
    ensures Forma(k) in MapaStatus && MapaStatus[Forma(k)] == MapaStatus[k]
  {
    Forma_CONCLUIDO(k);
    EntradasStatus();
  }

  lemma Status_CANCELADO(k: string)
    requires k == "CANCELADO"
    ensures Forma(k) in MapaStatus && MapaStatus[Forma(k)] == MapaStatus[k]
  {
    Forma_CANCELADO(k);
    EntradasStatus();
  }

  lemma StatusMaiusculos(k: string)
    requires k in {"AGENDADO", "EM_ANDAMENTO", "Em_Andamento", "CONCLUIDO", "CANCELADO"}
    ensures Forma(k) in MapaStatus && MapaStatus[Forma(k)] == MapaStatus[k]
  {
    if k == "AGENDADO" { Status_AGENDADO(k); }
    else if k == "EM_ANDAMENTO" { Status_EM_ANDAMENTO(k); }
    else if k == "Em_Andamento" { Status_Em_Andamento(k); }
    else if k == "CONCLUIDO" { Status_CONCLUIDO(k); }
    else if k == "CANCELADO" { Status_CANCELADO(k); }
  }

  lemma StatusMinusculosAbertos(k: string)
    requires k in {"agendado", "em_andamento", "em andamento"}
    ensures Forma(k) == k
  {
    if k == "agendado" { FormaLiteral(k, "agendado"); }
    else if k == "em_andamento" { FormaLiteral(k, "em_andamento"); }
    else if k == "em andamento" { FormaLiteral(k, "em andamento"); }
  }

  lemma StatusMinusculosFechados(k: string)
    requires k in {"concluido", "concluído", "cancelado"}
    ensures Forma(k) == k
  {
    if k == "concluido" { FormaLiteral(k, "concluido"); }
    else if k == "concluído" { FormaLiteral(k, "concluído"); }
    else if k == "cancelado" { FormaLiteral(k, "cancelado"); }
  }

  /** Every spelling in the table means the same as its `strip().lower()` form. */
  lemma MapaStatusCoerente()
    ensures Coerente(MapaStatus)
  {
    forall k | k in MapaStatus
      ensures Forma(k) in MapaStatus && MapaStatus[Forma(k)] == MapaStatus[k]
    {
      if k in {"AGENDADO", "EM_ANDAMENTO", "Em_Andamento", "CONCLUIDO", "CANCELADO"} {
        StatusMaiusculos(k);
      } else if k in {"agendado", "em_andamento", "em andamento"} {
        StatusMinusculosAbertos(k);
      } else {
        StatusMinusculosFechados(k);
      }
    }
  }

  /** `normalizar_status`: always one of the four service statuses, "agendado"
      for an empty or missing value. */
  function NormalizarStatus(value: string): (r: string)
    ensures r in StatusValidos
    ensures value == "" ==> r == "agendado"
  {
    MapaStatusBemFormado();
    NormalizarValido(value, MapaStatus, StatusValidos, "agendado");
    Normalizar(value, MapaStatus, StatusValidos, "agendado")
  }

  /** The status depends only on the trimmed, lower-cased input: a spelling
      the table knows gives its entry, anything else gives "agendado". */
  lemma NormalizarStatusPelaForma(value: string)
    ensures NormalizarStatus(value)
         == if Forma(value) in MapaStatus then MapaStatus[Forma(value)] else "agendado"
  {
    MapaStatusBemFormado();
    MapaStatusCoerente();
    NormalizarPelaForma(value, MapaStatus, StatusValidos, "agendado");
  }

  lemma NormalizarStatusIdempotente(value: string)
    ensures NormalizarStatus(NormalizarStatus(value)) == NormalizarStatus(value)
  {
    MapaStatusBemFormado();
    NormalizarIdempotente(value, MapaStatus, StatusValidos, "agendado");
  }

  // ---------------------------------------------------------------- type

  /** The accepted spellings of a service type and the value each stands for. */
  const MapaTipo: map<string, string> := map[
    "banho" := "banho",
    "BANHO" := "banho",
    "tosa" := "tosa",
    "TOSA" := "tosa",
    "banho_e_tosa" := "banho_e_tosa",
    "BANHO_E_TOSA" := "banho_e_tosa",
    "banho e tosa" := "banho_e_tosa",
    "Banho_e_Tosa" := "banho_e_tosa",
    "Banho e Tosa" := "banho_e_tosa"
  ]

  const TiposValidos: seq<string> := ["banho", "tosa", "banho_e_tosa"]

  lemma MapaTipoBemFormado()
    ensures BemFormado(MapaTipo, TiposValidos, "banho")
  {
  }

  /** The entries the capitalised spellings share with their lower-case forms. */
  lemma EntradasTipo()
    ensures "banho" in MapaTipo && MapaTipo["banho"] == MapaTipo["BANHO"]
    ensures "tosa" in MapaTipo && MapaTipo["tosa"] == MapaTipo["TOSA"]
    ensures "banho_e_tosa" in MapaTipo && MapaTipo["banho_e_tosa"] == MapaTipo["BANHO_E_TOSA"]
    ensures "banho_e_tosa" in MapaTipo && MapaTipo["banho_e_tosa"] == MapaTipo["Banho_e_Tosa"]
    ensures "banho e tosa" in MapaTipo && MapaTipo["banho e tosa"] == MapaTipo["Banho e Tosa"]
  {
  }

  lemma Tipo_BANHO(k: string)
    requires k == "BANHO"
    ensures Forma(k) in MapaTipo && MapaTipo[Forma(k)] == MapaTipo[k]
  {
    Forma_BANHO(k);
    EntradasTipo();
  }

  lemma Tipo_TOSA(k: string)
    requires k == "TOSA"
    ensures Forma(k) in MapaTipo && MapaTipo[Forma(k)] == MapaTipo[k]
  {
    Forma_TOSA(k);
    EntradasTipo();
  }

  lemma Tipo_BANHO_E_TOSA(k: string)
    requires k == "BANHO_E_TOSA"
    ensures Forma(k) in MapaTipo && MapaTipo[Forma(k)] == MapaTipo[k]
  {
    Forma_BANHO_E_TOSA(k);
    EntradasTipo();
  }

  lemma Tipo_Banho_e_Tosa(k: string)
    requires k == "Banho_e_Tosa"
    ensures Forma(k) in MapaTipo && MapaTipo[Forma(k)] == MapaTipo[k]
  {
    Forma_Banho_e_Tosa(k);
    EntradasTipo();
  }

  lemma Tipo_Banho_e_Tosa_com_espacos(k: string)
    requires k == "Banho e Tosa"
    ensures Forma(k) in MapaTipo && MapaTipo[Forma(k)] == MapaTipo[k]
  {
    Forma_Banho_e_Tosa_com_espacos(k);
    EntradasTipo();
  }

  lemma TiposMaiusculos(k: string)
    requires k in {"BANHO", "TOSA", "BANHO_E_TOSA", "Banho_e_Tosa", "Banho e Tosa"}
    ensures Forma(k) in MapaTipo && MapaTipo[Forma(k)] == MapaTipo[k]
  {
    if k == "BANHO" { Tipo_BANHO(k); }
    else if k == "TOSA" { Tipo_TOSA(k); }
    else if k == "BANHO_E_TOSA" { Tipo_BANHO_E_TOSA(k); }
    else if k == "Banho_e_Tosa" { Tipo_Banho_e_Tosa(k); }
    else if k == "Banho e Tosa" { Tipo_Banho_e_Tosa_com_espacos(k); }
  }

  lemma TiposMinusculos(k: string)
    requires k in {"banho", "tosa", "banho_e_tosa", "banho e tosa"}
    ensures Forma(k) == k
  {
    if k == "banho" { FormaLiteral(k, "banho"); }
    else if k == "tosa" { FormaLiteral(k, "tosa"); }
    else if k == "banho_e_tosa" { FormaLiteral(k, "banho_e_tosa"); }
    else if k == "banho e tosa" { FormaLiteral(k, "banho e tosa"); }
  }

  /** Every spelling in the table means the same as its `strip().lower()` form. */
  lemma MapaTipoCoerente()
    ensures Coerente(MapaTipo)
  {
    forall k | k in MapaTipo
      ensures Forma(k) in MapaTipo && MapaTipo[Forma(k)] == MapaTipo[k]
    {
      if k in {"BANHO", "TOSA", "BANHO_E_TOSA", "Banho_e_Tosa", "Banho e Tosa"} {
        TiposMaiusculos(k);
      } else {
        TiposMinusculos(k);
      }
    }
  }

  /** `normalizar_tipo_servico`: always one of the three service types,
      "banho" for an empty or missing value. */
  function NormalizarTipo(value: string): (r: string)
    ensures r in TiposValidos
    ensures value == "" ==> r == "banho"
  {
    MapaTipoBemFormado();
    NormalizarValido(value, MapaTipo, TiposValidos, "banho");
    Normalizar(value, MapaTipo, TiposValidos, "banho")
  }

  /** The type depends only on the trimmed, lower-cased input: a spelling the
      table knows gives its entry, anything else gives "banho". */
  lemma NormalizarTipoPelaForma(value: string)
    ensures NormalizarTipo(value)
         == if Forma(value) in MapaTipo then MapaTipo[Forma(value)] else "banho"
  {
    MapaTipoBemFormado();
    MapaTipoCoerente();
    NormalizarPelaForma(value, MapaTipo, TiposValidos, "banho");
  }

  lemma NormalizarTipoIdempotente(value: string)
    ensures NormalizarTipo(NormalizarTipo(value)) == NormalizarTipo(value)
  {
    MapaTipoBemFormado();
    NormalizarIdempotente(value, MapaTipo, TiposValidos, "banho");
  }

  /** Both spaced spellings of "bath and grooming" are understood. */
  lemma BanhoETosaPorExtenso(value: string)
    requires value == "Banho e Tosa" || value == "banho e tosa"
    ensures NormalizarTipo(value) == "banho_e_tosa"
  {
  }

  // ---------------------------------------------------------------- handlers

  /** Every stored service carries a canonical status and type. */
  ghost predicate ServicosCanonicos(db: Database)
    reads db
  {
    forall id | id in db.servicos :: db.servicos[id].status in StatusValidos && db.servicos[id].tipo_servico in TiposValidos
  }

  /** `criar_servico`: the owner is checked first, then the animal; on success
      one row with a fresh id, the normalised status and type and the other
      fields copied from the payload is stored. */
  method CriarServico(db: Database, data: BanhoTosaCreate) returns (r: Result<BanhoTosa>)
    requires db.Valid()
    modifies db`servicos, db`proximoServico
    ensures db.Valid()
    ensures data.dono_id !in db.donos ==> r == Err(404, "Dono não encontrado")
    ensures data.dono_id in db.donos && data.animal_id !in db.animais ==> r == Err(404, "Animal não encontrado")
    ensures data.dono_id in db.donos && data.animal_id in db.animais ==> r.Ok?
    ensures r.Err? ==> db.servicos == old(db.servicos)
    ensures r.Ok? ==>
      && data.dono_id in db.donos && data.animal_id in db.animais
      && r.value.id !in old(db.servicos)
      && db.servicos == old(db.servicos)[r.value.id := r.value]
      && r.value == BanhoTosa(r.value.id, data.data_hora, NormalizarTipo(data.tipo_servico),
                              NormalizarStatus(data.status), data.valor, data.observacoes,
                              data.duracao_estimada, data.dono_id, data.animal_id)
    ensures old(ServicosCanonicos(db)) ==> ServicosCanonicos(db)
  {
    if data.dono_id !in db.donos {
      return Err(404, "Dono não encontrado");
    }
    if data.animal_id !in db.animais {
      return Err(404, "Animal não encontrado");
    }
    var status_normalizado := NormalizarStatus(data.status);
    var tipo_normalizado := NormalizarTipo(data.tipo_servico);
    var id := db.proximoServico;
    var servico := BanhoTosa(id, data.data_hora, tipo_normalizado, status_normalizado, data.valor,
                             data.observacoes, data.duracao_estimada, data.dono_id, data.animal_id);
    db.servicos := db.servicos[id := servico];
    db.proximoServico := id + 1;
    return Ok(servico);
  }

  /** A client that leaves `status` out gets the schema default, and the
      normaliser keeps it: the service is stored as "agendado". */
  lemma StatusPadraoServico(data_hora: DataHora, tipo_servico: string, dono_id: int, animal_id: int)
    ensures NormalizarStatus(NovoServico(data_hora, tipo_servico, dono_id, animal_id).status) == "agendado"
  {
    MapaStatusBemFormado();
  }

  /** `POST /banho-tosa` with no `status` in the body: with both parents
      stored it succeeds and the new row is "agendado", with the normalised
      type. */
  method CriarServicoSemStatus(db: Database, data_hora: DataHora, tipo_servico: string, dono_id: int, animal_id: int)
    returns (r: Result<BanhoTosa>)
    requires db.Valid()
    modifies db`servicos, db`proximoServico
    ensures db.Valid()
    ensures dono_id in db.donos && animal_id in db.animais ==>
      && r.Ok? && r.value.status == "agendado" && r.value.tipo_servico == NormalizarTipo(tipo_servico)
      && r.value.id !in old(db.servicos) && db.servicos == old(db.servicos)[r.value.id := r.value]
    ensures r.Err? ==> db.servicos == old(db.servicos)
  {
    StatusPadraoServico(data_hora, tipo_servico, dono_id, animal_id);
    r := CriarServico(db, NovoServico(data_hora, tipo_servico, dono_id, animal_id));
  }

  /** One `setattr(servico, campo, valor)` of the update loop. */
  datatype CampoServico =
    | DataHoraServico(data_hora: DataHora)
    | TipoServico(tipo_servico: string)
    | StatusServico(status: string)
    | ValorServico(valor: Option<int>)
    | ObservacoesServico(observacoes: Option<string>)
    | DuracaoServico(duracao_estimada: Option<int>)

  function Setattr(s: BanhoTosa, campo: CampoServico): BanhoTosa {
    match campo
    case DataHoraServico(v) => s.(data_hora := v)
    case TipoServico(v) => s.(tipo_servico := v)
    case StatusServico(v) => s.(status := v)
    case ValorServico(v) => s.(valor := v)
    case ObservacoesServico(v) => s.(observacoes := v)
    case DuracaoServico(v) => s.(duracao_estimada := v)
  }

  /** `dados.dict(exclude_unset=True)` after normalisation: the supplied
      fields, in schema order, with status and type already normalised. */
  function DadosAtualizacao(dados: BanhoTosaUpdate): seq<CampoServico> {
    (if dados.data_hora.Presente? then [DataHoraServico(dados.data_hora.value)] else [])
    + (if dados.tipo_servico.Presente? then [TipoServico(NormalizarTipo(TextoOuVazio(dados.tipo_servico.value)))] else [])
    + (if dados.status.Presente? then [StatusServico(NormalizarStatus(TextoOuVazio(dados.status.value)))] else [])
    + (if dados.valor.Presente? then [ValorServico(dados.valor.value)] else [])
    + (if dados.observacoes.Presente? then [ObservacoesServico(dados.observacoes.value)] else [])
    + (if dados.duracao_estimada.Presente? then [DuracaoServico(dados.duracao_estimada.value)] else [])
  }

  /** The row after the `setattr` calls for `campos`, in order. */
  function AplicarCampos(s: BanhoTosa, campos: seq<CampoServico>): BanhoTosa
    decreases |campos|
  {
    if campos == [] then s else AplicarCampos(Setattr(s, campos[0]), campos[1..])
  }

  /** The updated row field by field: a supplied field takes its (normalised)
      new value, an omitted one keeps the stored value. */
  function Atualizado(s: BanhoTosa, dados: BanhoTosaUpdate): (r: BanhoTosa)
    ensures r.id == s.id && r.dono_id == s.dono_id && r.animal_id == s.animal_id
    ensures dados.status.Ausente? ==> r.status == s.status
    ensures dados.status.Presente? ==> r.status in StatusValidos
    ensures dados.tipo_servico.Ausente? ==> r.tipo_servico == s.tipo_servico
    ensures dados.tipo_servico.Presente? ==> r.tipo_servico in TiposValidos
  {
    BanhoTosa(
      s.id,
      if dados.data_hora.Presente? then dados.data_hora.value else s.data_hora,
      if dados.tipo_servico.Presente? then NormalizarTipo(TextoOuVazio(dados.tipo_servico.value)) else s.tipo_servico,
      if dados.status.Presente? then NormalizarStatus(TextoOuVazio(dados.status.value)) else s.status,
      if dados.valor.Presente? then dados.valor.value else s.valor,
      if dados.observacoes.Presente? then dados.observacoes.value else s.observacoes,
      if dados.duracao_estimada.Presente? then dados.duracao_estimada.value else s.duracao_estimada,
      s.dono_id,
      s.animal_id)
  }

  lemma {:induction false} AplicarConcat(s: BanhoTosa, a: seq<CampoServico>, b: seq<CampoServico>)
    ensures AplicarCampos(s, a + b) == AplicarCampos(AplicarCampos(s, a), b)
    decreases |a|
  {
    if a == [] {
      assert a + b == b;
    } else {
      assert (a + b)[0] == a[0];
      assert (a + b)[1..] == a[1..] + b;
      AplicarConcat(Setattr(s, a[0]), a[1..], b);
    }
  }

  /** The row after the `setattr` for a field that is present at most once. */
  function Passo(s: BanhoTosa, campos: seq<CampoServico>): BanhoTosa {
    if campos == [] then s else Setattr(s, campos[0])
  }

  lemma AplicarUm(s: BanhoTosa, campos: seq<CampoServico>)
    requires |campos| <= 1
    ensures AplicarCampos(s, campos) == Passo(s, campos)
  {
    if campos != [] {
      assert campos[1..] == [];
    }
  }

  lemma AplicarSeis(s: BanhoTosa, p1: seq<CampoServico>, p2: seq<CampoServico>, p3: seq<CampoServico>,
                    p4: seq<CampoServico>, p5: seq<CampoServico>, p6: seq<CampoServico>)
    requires |p1| <= 1 && |p2| <= 1 && |p3| <= 1 && |p4| <= 1 && |p5| <= 1 && |p6| <= 1
    ensures AplicarCampos(s, p1 + p2 + p3 + p4 + p5 + p6)
         == Passo(Passo(Passo(Passo(Passo(Passo(s, p1), p2), p3), p4), p5), p6)
  {
    AplicarConcat(s, p1 + p2 + p3 + p4 + p5, p6);
    AplicarConcat(s, p1 + p2 + p3 + p4, p5);
    AplicarConcat(s, p1 + p2 + p3, p4);
    AplicarConcat(s, p1 + p2, p3);
    AplicarConcat(s, p1, p2);
    AplicarUm(s, p1);
    var s1 := Passo(s, p1);
    AplicarUm(s1, p2);
    var s2 := Passo(s1, p2);
    AplicarUm(s2, p3);
    var s3 := Passo(s2, p3);
    AplicarUm(s3, p4);
    var s4 := Passo(s3, p4);
    AplicarUm(s4, p5);
    var s5 := Passo(s4, p5);
    AplicarUm(s5, p6);
  }

  /** Running the `setattr` loop over the update dictionary yields exactly the
      field-by-field update. */
  lemma AplicarDadosAtualizacao(s: BanhoTosa, dados: BanhoTosaUpdate)
    ensures AplicarCampos(s, DadosAtualizacao(dados)) == Atualizado(s, dados)
  {
    var p1 := if dados.data_hora.Presente? then [DataHoraServico(dados.data_hora.value)] else [];
    var p2 := if dados.tipo_servico.Presente? then [TipoServico(NormalizarTipo(TextoOuVazio(dados.tipo_servico.value)))] else [];
    var p3 := if dados.status.Presente? then [StatusServico(NormalizarStatus(TextoOuVazio(dados.status.value)))] else [];
    var p4 := if dados.valor.Presente? then [ValorServico(dados.valor.value)] else [];
    var p5 := if dados.observacoes.Presente? then [ObservacoesServico(dados.observacoes.value)] else [];
    var p6 := if dados.duracao_estimada.Presente? then [DuracaoServico(dados.duracao_estimada.value)] else [];
    AplicarSeis(s, p1, p2, p3, p4, p5, p6);
  }

  /** `atualizar_servico`: 404 on a missing id; otherwise the `setattr` loop
      over the supplied fields, which leaves id, owner and animal untouched. */
  method AtualizarServico(db: Database, servico_id: int, dados: BanhoTosaUpdate) returns (r: Result<BanhoTosa>)
    requires db.Valid()
    modifies db`servicos
    ensures db.Valid()
    ensures servico_id !in old(db.servicos) ==> r == Err(404, "Serviço não encontrado") && db.servicos == old(db.servicos)
    ensures servico_id in old(db.servicos) ==>
      && r == Ok(Atualizado(old(db.servicos[servico_id]), dados))
      && db.servicos == old(db.servicos)[servico_id := r.value]
    ensures old(ServicosCanonicos(db)) ==> ServicosCanonicos(db)
  {
    if servico_id !in db.servicos {
      return Err(404, "Serviço não encontrado");
    }
    var servico := db.servicos[servico_id];
    var update_data := DadosAtualizacao(dados);
    var i := 0;
    while i < |update_data|
      invariant 0 <= i <= |update_data|
      invariant db.servicos == old(db.servicos)
      invariant AplicarCampos(servico, update_data[i..]) == AplicarCampos(db.servicos[servico_id], update_data)
    {
      assert update_data[i..][1..] == update_data[i + 1..];
      servico := Setattr(servico, update_data[i]);
      i := i + 1;
    }
    assert update_data[i..] == [];
    AplicarDadosAtualizacao(db.servicos[servico_id], dados);
    db.servicos := db.servicos[servico_id := servico];
    return Ok(servico);
  }

  /** `remover_servico`: 404 on a missing id; otherwise exactly that row goes. */
  method RemoverServico(db: Database, servico_id: int) returns (r: Result<()>)
    requires db.Valid()
    modifies db`servicos
    ensures db.Valid()
    ensures servico_id !in old(db.servicos) ==> r == Err(404, "Serviço não encontrado") && db.servicos == old(db.servicos)
    ensures servico_id in old(db.servicos) ==> r == Ok(()) && db.servicos == old(db.servicos) - {servico_id}
    ensures old(ServicosCanonicos(db)) ==> ServicosCanonicos(db)
  {
    if servico_id !in db.servicos {
      return Err(404, "Serviço não encontrado");
    }
    db.servicos := db.servicos - {servico_id};
    return Ok(());
  }

  // ---------------------------------------------------------------- dashboard

  datatype StatsServicos = StatsServicos(
    total_servicos: int, agendados: int, concluidos: int, cancelados: int, em_andamento: int)

  function StatusDosServicos(servicos: map<int, BanhoTosa>): (m: map<int, string>)
    ensures m.Keys == servicos.Keys
    ensures forall id | id in m :: m[id] == servicos[id].status
  {
    map id | id in servicos :: servicos[id].status
  }

  /** `stats_dashboard`: the total is the row count, each bucket is the set of
      rows with exactly that status, and the buckets never add up to more than
      the total. */
  function StatsDashboard(db: Database): (r: StatsServicos)
    reads db
    ensures r.total_servicos == |db.servicos|
    ensures r.agendados == |set id | id in db.servicos && db.servicos[id].status == "agendado"|
    ensures r.concluidos == |set id | id in db.servicos && db.servicos[id].status == "concluido"|
    ensures r.cancelados == |set id | id in db.servicos && db.servicos[id].status == "cancelado"|
    ensures r.em_andamento == |set id | id in db.servicos && db.servicos[id].status == "em_andamento"|
    ensures r.agendados + r.concluidos + r.cancelados + r.em_andamento <= r.total_servicos
  {
    var status := StatusDosServicos(db.servicos);
    GruposSomam(status, "agendado", "concluido", "cancelado", "em_andamento");
    assert ComStatus(status, "agendado") == set id | id in db.servicos && db.servicos[id].status == "agendado";
    assert ComStatus(status, "concluido") == set id | id in db.servicos && db.servicos[id].status == "concluido";
    assert ComStatus(status, "cancelado") == set id | id in db.servicos && db.servicos[id].status == "cancelado";
    assert ComStatus(status, "em_andamento") == set id | id in db.servicos && db.servicos[id].status == "em_andamento";
    StatsServicos(
      |db.servicos|,
      |ComStatus(status, "agendado")|,
      |ComStatus(status, "concluido")|,
      |ComStatus(status, "cancelado")|,
      |ComStatus(status, "em_andamento")|)
  }

  /** When every stored status is canonical the four buckets partition the table. */
  lemma StatsDashboardCompletas(db: Database)
    requires ServicosCanonicos(db)
    ensures var r := StatsDashboard(db);
      r.agendados + r.concluidos + r.cancelados + r.em_andamento == r.total_servicos
  {
    var status := StatusDosServicos(db.servicos);
    GruposSomam(status, "agendado", "concluido", "cancelado", "em_andamento");
  }
}
