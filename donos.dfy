/** The owner router (`/donos`): create, list, get, full update and delete
    over the owner table. */
module DonosRouter {
  import opened Common
  import opened Models
  import opened Schemas

  /** `criar_dono`: always succeeds, storing one row under a fresh id. */
  method CriarDono(db: Database, dono: DonoCreate) returns (r: Dono)
    requires db.Valid()
    modifies db`donos, db`proximoDono
    ensures db.Valid()
    ensures r.id !in old(db.donos) && r.nome == dono.nome && r.telefone == dono.telefone
    ensures db.donos == old(db.donos)[r.id := r]
    ensures old(db.DonosDosAnimaisExistem()) ==> db.DonosDosAnimaisExistem()
  {
    var id := db.proximoDono;
    r := Dono(id, dono.nome, dono.telefone);
    db.donos := db.donos[id := r];
    db.proximoDono := id + 1;
  }

  /** `listar_donos`: every stored owner, once each. */
  function ListarDonos(db: Database): (r: set<Dono>)
    requires db.Valid()
    reads db
    ensures forall id | id in db.donos :: db.donos[id] in r
    ensures forall d | d in r :: d.id in db.donos && db.donos[d.id] == d
    ensures |r| == |db.donos|
  {
    LinhasContam(db.donos, (d: Dono) => d.id);
    Linhas(db.donos)
  }

  /** `obter_dono`: the stored owner, or 404. */
  function ObterDono(db: Database, dono_id: int): (r: Result<Dono>)
    reads db
    ensures r.Ok? <==> dono_id in db.donos
    ensures r.Ok? ==> r.value == db.donos[dono_id]
    ensures r.Err? ==> r == Err(404, "Dono não encontrado")
    ensures db.Valid() && r.Ok? ==> r.value.id == dono_id
  {
    if dono_id in db.donos then Ok(db.donos[dono_id]) else Err(404, "Dono não encontrado")
  }

  /** One `setattr(dono, campo, valor)` of the update loop. */
  datatype CampoDono = NomeDono(nome: string) | TelefoneDono(telefone: string)

  function Setattr(d: Dono, campo: CampoDono): Dono {
    match campo
    case NomeDono(v) => d.(nome := v)
    case TelefoneDono(v) => d.(telefone := v)
  }

  /** Whether the row already holds the value `campo` assigns. */
  predicate Tem(d: Dono, campo: CampoDono) {
    match campo
    case NomeDono(v) => d.nome == v
    case TelefoneDono(v) => d.telefone == v
  }

  /** `dados.dict().items()`: every field of the payload, in schema order. */
  function Itens(dados: DonoCreate): seq<CampoDono> {
    [NomeDono(dados.nome), TelefoneDono(dados.telefone)]
  }

  /** `atualizar_dono`: 404 on a missing id, with nothing changed; otherwise
      both fields are replaced and the id is kept. */
  method AtualizarDono(db: Database, dono_id: int, dados: DonoCreate) returns (r: Result<Dono>)
    requires db.Valid()
    modifies db`donos
    ensures db.Valid()
    ensures dono_id !in old(db.donos) ==> r == Err(404, "Dono não encontrado") && db.donos == old(db.donos)
    ensures dono_id in old(db.donos) ==>
      && r == Ok(Dono(dono_id, dados.nome, dados.telefone))
      && db.donos == old(db.donos)[dono_id := r.value]
    ensures old(db.DonosDosAnimaisExistem()) ==> db.DonosDosAnimaisExistem()
  {
    if dono_id !in db.donos {
      return Err(404, "Dono não encontrado");
    }
    var dono := db.donos[dono_id];
    var itens := Itens(dados);
    for i := 0 to |itens|
      invariant dono.id == dono_id
      invariant forall j | 0 <= j < i :: Tem(dono, itens[j])
    {
      dono := Setattr(dono, itens[i]);
    }
    assert Tem(dono, itens[0]) && Tem(dono, itens[1]);
    db.donos := db.donos[dono_id := dono];
    return Ok(dono);
  }

  /** `deletar_dono`: 404 on a missing id; otherwise that owner is gone and the
      other owners are untouched. The owner's animals are not removed. */
  method DeletarDono(db: Database, dono_id: int) returns (r: Result<()>)
    requires db.Valid()
    modifies db`donos
    ensures db.Valid()
    ensures dono_id !in old(db.donos) ==> r == Err(404, "Dono não encontrado") && db.donos == old(db.donos)
    ensures dono_id in old(db.donos) ==> r == Ok(()) && db.donos == old(db.donos) - {dono_id}
    ensures r.Ok? && (exists id | id in db.animais :: db.animais[id].dono_id == dono_id) ==> !db.DonosDosAnimaisExistem()
    ensures old(db.DonosDosAnimaisExistem()) && !(exists id | id in db.animais :: db.animais[id].dono_id == dono_id)
            ==> db.DonosDosAnimaisExistem()
  {
    if dono_id !in db.donos {
      return Err(404, "Dono não encontrado");
    }
    db.donos := db.donos - {dono_id};
    return Ok(());
  }
}
