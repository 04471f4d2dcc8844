/** The animal router (`/animais`): create, list, get, full update and delete
    over the animal table, with the owner checked on create and update. */
module AnimaisRouter {
  import opened Common
  import opened Models
  import opened Schemas

  /** `criar_animal`: 404 and nothing stored when the owner is missing;
      otherwise one row with a fresh id and the payload's fields. */
  method CriarAnimal(db: Database, animal: AnimalCreate) returns (r: Result<Animal>)
    requires db.Valid()
    modifies db`animais, db`proximoAnimal
    ensures db.Valid()
    ensures animal.dono_id !in db.donos ==> r == Err(404, "Dono não encontrado") && db.animais == old(db.animais)
    ensures animal.dono_id in db.donos ==>
      && r.Ok?
      && r.value.id !in old(db.animais)
      && r.value == Animal(r.value.id, animal.nome, animal.especie, animal.idade, animal.dono_id)
      && db.animais == old(db.animais)[r.value.id := r.value]
    ensures old(db.DonosDosAnimaisExistem()) ==> db.DonosDosAnimaisExistem()
  {
    if animal.dono_id !in db.donos {
      return Err(404, "Dono não encontrado");
    }
    var id := db.proximoAnimal;
    var novo_animal := Animal(id, animal.nome, animal.especie, animal.idade, animal.dono_id);
    db.animais := db.animais[id := novo_animal];
    db.proximoAnimal := id + 1;
    return Ok(novo_animal);
  }

  /** `listar_animais`: every stored animal, once each. */
  function ListarAnimais(db: Database): (r: set<Animal>)
    requires db.Valid()
    reads db
    ensures forall id | id in db.animais :: db.animais[id] in r
    ensures forall a | a in r :: a.id in db.animais && db.animais[a.id] == a
    ensures |r| == |db.animais|
  {
    LinhasContam(db.animais, (a: Animal) => a.id);
    Linhas(db.animais)
  }

  /** `obter_animal`: the stored animal, or 404. */
  function ObterAnimal(db: Database, animal_id: int): (r: Result<Animal>)
    reads db
    ensures r.Ok? <==> animal_id in db.animais
    ensures r.Ok? ==> r.value == db.animais[animal_id]
    ensures r.Err? ==> r == Err(404, "Animal não encontrado")
    ensures db.Valid() && r.Ok? ==> r.value.id == animal_id
  {
    if animal_id in db.animais then Ok(db.animais[animal_id]) else Err(404, "Animal não encontrado")
  }

  /** One `setattr(animal, campo, valor)` of the update loop. */
  datatype CampoAnimal =
    | NomeAnimal(nome: string)
    | EspecieAnimal(especie: string)
    | IdadeAnimal(idade: int)
    | DonoAnimal(dono_id: int)

  function Setattr(a: Animal, campo: CampoAnimal): Animal {
    match campo
    case NomeAnimal(v) => a.(nome := v)
    case EspecieAnimal(v) => a.(especie := v)
    case IdadeAnimal(v) => a.(idade := v)
    case DonoAnimal(v) => a.(dono_id := v)
  }

  /** Whether the row already holds the value `campo` assigns. */
  predicate Tem(a: Animal, campo: CampoAnimal) {
    match campo
    case NomeAnimal(v) => a.nome == v
    case EspecieAnimal(v) => a.especie == v
    case IdadeAnimal(v) => a.idade == v
    case DonoAnimal(v) => a.dono_id == v
  }

  /** `dados.dict().items()`: every field of the payload, in schema order. */
  function Itens(dados: AnimalCreate): seq<CampoAnimal> {
    [NomeAnimal(dados.nome), EspecieAnimal(dados.especie), IdadeAnimal(dados.idade), DonoAnimal(dados.dono_id)]
  }

  /** `atualizar_animal`: 404 if the animal is missing (checked first) or if
      the new owner is missing, with nothing changed; otherwise all four fields
      are replaced and the id is kept. */
  method AtualizarAnimal(db: Database, animal_id: int, dados: AnimalCreate) returns (r: Result<Animal>)
    requires db.Valid()
    modifies db`animais
    ensures db.Valid()
    ensures animal_id !in old(db.animais) ==> r == Err(404, "Animal não encontrado")
    ensures animal_id in old(db.animais) && dados.dono_id !in db.donos ==> r == Err(404, "Dono não encontrado")
    ensures r.Err? ==> db.animais == old(db.animais)
    ensures animal_id in old(db.animais) && dados.dono_id in db.donos ==>
      && r == Ok(Animal(animal_id, dados.nome, dados.especie, dados.idade, dados.dono_id))
      && db.animais == old(db.animais)[animal_id := r.value]
    ensures old(db.DonosDosAnimaisExistem()) ==> db.DonosDosAnimaisExistem()
  {
    if animal_id !in db.animais {
      return Err(404, "Animal não encontrado");
    }
    if dados.dono_id !in db.donos {
      return Err(404, "Dono não encontrado");
    }
    var animal := db.animais[animal_id];
    var itens := Itens(dados);
    for i := 0 to |itens|
      invariant animal.id == animal_id
      invariant forall j | 0 <= j < i :: Tem(animal, itens[j])
    {
      animal := Setattr(animal, itens[i]);
    }
    assert Tem(animal, itens[0]) && Tem(animal, itens[1]) && Tem(animal, itens[2]) && Tem(animal, itens[3]);
    db.animais := db.animais[animal_id := animal];
    return Ok(animal);
  }

  /** `deletar_animal`: 404 on a missing id; otherwise exactly that animal goes. */
  method DeletarAnimal(db: Database, animal_id: int) returns (r: Result<()>)
    requires db.Valid()
    modifies db`animais
    ensures db.Valid()
    ensures animal_id !in old(db.animais) ==> r == Err(404, "Animal não encontrado") && db.animais == old(db.animais)
    ensures animal_id in old(db.animais) ==> r == Ok(()) && db.animais == old(db.animais) - {animal_id}
    ensures old(db.DonosDosAnimaisExistem()) ==> db.DonosDosAnimaisExistem()
  {
    if animal_id !in db.animais {
      return Err(404, "Animal não encontrado");
    }
    db.animais := db.animais - {animal_id};
    return Ok(());
  }
}
