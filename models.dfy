/** The tables of the clinic database (models.py), held in memory: one map per
    table, keyed by primary key, and the next key each table will hand out. */
module Models {
  import opened Common

  /** Dates and date-times travel as their ISO text; their calendar meaning is not modelled. */
  type DataHora = string
  type Data = string

  datatype Dono = Dono(id: int, nome: string, telefone: string)

  datatype Animal = Animal(id: int, nome: string, especie: string, idade: int, dono_id: int)

  datatype Vacina = Vacina(id: int, nome: string, data_aplicacao: Data, animal_id: int)

  /** An appointment; `valor` is in cents. */
  datatype Consulta = Consulta(
    id: int, data_hora: DataHora, motivo: string, observacoes: Option<string>,
    status: string, valor: Option<int>, dono_id: int, animal_id: int)

  /** A grooming service; `valor` is in cents and `duracao_estimada` in minutes. */
  datatype BanhoTosa = BanhoTosa(
    id: int, data_hora: DataHora, tipo_servico: string, status: string, valor: Option<int>,
    observacoes: Option<string>, duracao_estimada: Option<int>, dono_id: int, animal_id: int)

  /** The session every router works through. `add` + `commit` + `refresh`
      stores a row under the next free key; `delete` + `commit` removes it. */
  class Database {
    var donos: map<int, Dono>
    var animais: map<int, Animal>
    var vacinas: map<int, Vacina>
    var consultas: map<int, Consulta>
    var servicos: map<int, BanhoTosa>

    var proximoDono: int
    var proximoAnimal: int
    var proximaVacina: int
    var proximaConsulta: int
    var proximoServico: int

    /** Every row sits under its own id, and every key in use is below the
        table's next key, so the next key is always free. */
    ghost predicate Valid()
      reads this
    {
      && 1 <= proximoDono && 1 <= proximoAnimal && 1 <= proximaVacina
      && 1 <= proximaConsulta && 1 <= proximoServico
      && (forall id | id in donos :: 1 <= id < proximoDono && donos[id].id == id)
      && (forall id | id in animais :: 1 <= id < proximoAnimal && animais[id].id == id)
      && (forall id | id in vacinas :: 1 <= id < proximaVacina && vacinas[id].id == id)
      && (forall id | id in consultas :: 1 <= id < proximaConsulta && consultas[id].id == id)
      && (forall id | id in servicos :: 1 <= id < proximoServico && servicos[id].id == id)
    }

    constructor ()
      ensures Valid()
      ensures donos == map[] && animais == map[] && vacinas == map[]
      ensures consultas == map[] && servicos == map[]
    {
      donos, animais, vacinas, consultas, servicos := map[], map[], map[], map[], map[];
      proximoDono, proximoAnimal, proximaVacina, proximaConsulta, proximoServico := 1, 1, 1, 1, 1;
    }

    /** Referential integrity of the animal table: every animal's owner is stored. */
    ghost predicate DonosDosAnimaisExistem()
      reads this
    {
      forall id | id in animais :: animais[id].dono_id in donos
    }
  }

  /** The rows of a table, each once: what `db.query(T).all()` yields, without its order. */
  function Linhas<R(==)>(tabela: map<int, R>): set<R> {
    set id | id in tabela :: tabela[id]
  }

  /** Rows are told apart by their key, so a table lists exactly as many rows as it has keys. */
  lemma {:induction false} LinhasContam<R>(tabela: map<int, R>, idDe: R -> int)
    requires forall id | id in tabela :: idDe(tabela[id]) == id
    ensures |Linhas(tabela)| == |tabela|
    decreases |tabela|
  {
    if tabela != map[] {
      TemElemento(tabela.Keys);
      var k :| k in tabela;
      var resto := tabela - {k};
      LinhasContam(resto, idDe);
      forall r | r in Linhas(tabela) ensures r in Linhas(resto) + {tabela[k]} {
        var id :| id in tabela && tabela[id] == r;
        if id != k { assert id in resto; }
      }
      assert Linhas(tabela) == Linhas(resto) + {tabela[k]};
      assert tabela[k] !in Linhas(resto);
      assert |tabela.Keys| == |resto.Keys| + 1 by { assert tabela.Keys == resto.Keys + {k}; }
    }
  }
}
