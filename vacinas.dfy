/** The vaccine router (`/vacinas`): create, list, get, update and delete over
    the vaccine table, and the per-animal listing. */
module VacinasRouter {
  import opened Common
  import opened Models
  import opened Schemas

  /** `criar_vacina`: 404 and nothing stored when the animal named in the
      query string is missing; otherwise one row with a fresh id, the payload's
      fields and that animal. */
  method CriarVacina(db: Database, vacina: VacinaCreate, animal_id: int) returns (r: Result<Vacina>)
    requires db.Valid()
    modifies db`vacinas, db`proximaVacina
    ensures db.Valid()
    ensures animal_id !in db.animais ==> r == Err(404, "Animal não encontrado") && db.vacinas == old(db.vacinas)
    ensures animal_id in db.animais ==>
      && r.Ok?
      && r.value.id !in old(db.vacinas)
      && r.value == Vacina(r.value.id, vacina.nome, vacina.data_aplicacao, animal_id)
      && db.vacinas == old(db.vacinas)[r.value.id := r.value]
  {
    if animal_id !in db.animais {
      return Err(404, "Animal não encontrado");
    }
    var id := db.proximaVacina;
    var nova_vacina := Vacina(id, vacina.nome, vacina.data_aplicacao, animal_id);
    db.vacinas := db.vacinas[id := nova_vacina];
    db.proximaVacina := id + 1;
    return Ok(nova_vacina);
  }

  /** `listar_vacinas`: every stored vaccine, once each. */
  function ListarVacinas(db: Database): (r: set<Vacina>)
    requires db.Valid()
    reads db
    ensures forall id | id in db.vacinas :: db.vacinas[id] in r
    ensures forall v | v in r :: v.id in db.vacinas && db.vacinas[v.id] == v
    ensures |r| == |db.vacinas|
  {
    LinhasContam(db.vacinas, (v: Vacina) => v.id);
    Linhas(db.vacinas)
  }

  /** `obter_vacina`: the stored vaccine, or 404. */
  function ObterVacina(db: Database, vacina_id: int): (r: Result<Vacina>)
    reads db
    ensures r.Ok? <==> vacina_id in db.vacinas
    ensures r.Ok? ==> r.value == db.vacinas[vacina_id]
    ensures r.Err? ==> r == Err(404, "Vacina não encontrada")
    ensures db.Valid() && r.Ok? ==> r.value.id == vacina_id
  {
    if vacina_id in db.vacinas then Ok(db.vacinas[vacina_id]) else Err(404, "Vacina não encontrada")
  }

  /** One `setattr(vacina, campo, valor)` of the update loop. */
  datatype CampoVacina = NomeVacina(nome: string) | DataAplicacao(data_aplicacao: Data)

  function Setattr(v: Vacina, campo: CampoVacina): Vacina {
    match campo
    case NomeVacina(x) => v.(nome := x)
    case DataAplicacao(x) => v.(data_aplicacao := x)
  }

  /** Whether the row already holds the value `campo` assigns. */
  predicate Tem(v: Vacina, campo: CampoVacina) {
    match campo
    case NomeVacina(x) => v.nome == x
    case DataAplicacao(x) => v.data_aplicacao == x
  }

  /** `dados.dict().items()`: the two fields of the payload, in schema order. */
  function Itens(dados: VacinaCreate): seq<CampoVacina> {
    [NomeVacina(dados.nome), DataAplicacao(dados.data_aplicacao)]
  }

  /** `atualizar_vacina`: 404 on a missing id; otherwise name and date are
      replaced, and id and animal are kept (the payload carries no animal). */
  method AtualizarVacina(db: Database, vacina_id: int, dados: VacinaCreate) returns (r: Result<Vacina>)
    requires db.Valid()
    modifies db`vacinas
    ensures db.Valid()
    ensures vacina_id !in old(db.vacinas) ==> r == Err(404, "Vacina não encontrada") && db.vacinas == old(db.vacinas)
    ensures vacina_id in old(db.vacinas) ==>
      && r == Ok(Vacina(vacina_id, dados.nome, dados.data_aplicacao, old(db.vacinas[vacina_id].animal_id)))
      && db.vacinas == old(db.vacinas)[vacina_id := r.value]
  {
    if vacina_id !in db.vacinas {
      return Err(404, "Vacina não encontrada");
    }
    var vacina := db.vacinas[vacina_id];
    var itens := Itens(dados);
    for i := 0 to |itens|
      invariant vacina.id == vacina_id
      invariant vacina.animal_id == db.vacinas[vacina_id].animal_id
      invariant forall j | 0 <= j < i :: Tem(vacina, itens[j])
    {
      vacina := Setattr(vacina, itens[i]);
    }
    assert Tem(vacina, itens[0]) && Tem(vacina, itens[1]);
    db.vacinas := db.vacinas[vacina_id := vacina];
    return Ok(vacina);
  }

  /** `deletar_vacina`: 404 on a missing id; otherwise exactly that row goes. */
  method DeletarVacina(db: Database, vacina_id: int) returns (r: Result<()>)
    requires db.Valid()
    modifies db`vacinas
    ensures db.Valid()
    ensures vacina_id !in old(db.vacinas) ==> r == Err(404, "Vacina não encontrada") && db.vacinas == old(db.vacinas)
    ensures vacina_id in old(db.vacinas) ==> r == Ok(()) && db.vacinas == old(db.vacinas) - {vacina_id}
  {
    if vacina_id !in db.vacinas {
      return Err(404, "Vacina não encontrada");
    }
    db.vacinas := db.vacinas - {vacina_id};
    return Ok(());
  }

  /** `listar_vacinas_por_animal`: 404 when the animal is missing; otherwise
      exactly the stored vaccines of that animal. */
  function ListarVacinasPorAnimal(db: Database, animal_id: int): (r: Result<set<Vacina>>)
    reads db
    ensures animal_id !in db.animais ==> r == Err(404, "Animal não encontrado")
    ensures animal_id in db.animais ==> r.Ok?
    ensures r.Ok? ==> forall v :: v in r.value <==> v in Linhas(db.vacinas) && v.animal_id == animal_id
  {
    if animal_id !in db.animais then Err(404, "Animal não encontrado")
    else Ok(set v | v in Linhas(db.vacinas) && v.animal_id == animal_id)
  }

  /** The per-animal listings split the vaccine table: every vaccine of an
      existing animal shows up under that animal and no other. */
  lemma VacinaListadaSoNoSeuAnimal(db: Database, v: Vacina, a: int, b: int)
    requires v in Linhas(db.vacinas) && a in db.animais && b in db.animais
    requires v in ListarVacinasPorAnimal(db, a).value && v in ListarVacinasPorAnimal(db, b).value
    ensures a == b && v.animal_id == a
  {
  }
}
