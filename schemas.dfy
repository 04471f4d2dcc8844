/** The request bodies the routers accept (schemas.py). */
module Schemas {
  import opened Common
  import opened Models

  datatype DonoCreate = DonoCreate(nome: string, telefone: string)

  datatype AnimalCreate = AnimalCreate(nome: string, especie: string, idade: int, dono_id: int)

  /** A vaccine body carries no animal: the animal comes from the query string. */
  datatype VacinaCreate = VacinaCreate(nome: string, data_aplicacao: Data)

  /** `status` defaults to "agendada" when the client leaves it out. */
  datatype ConsultaCreate = ConsultaCreate(
    data_hora: DataHora, motivo: string, observacoes: Option<string>, status: string,
    valor: Option<int>, dono_id: int, animal_id: int)

  /** Every field optional; neither owner nor animal can be changed. */
  datatype ConsultaUpdate = ConsultaUpdate(
    data_hora: Campo<DataHora>, motivo: Campo<string>, observacoes: Campo<Option<string>>,
    status: Campo<Option<string>>, valor: Campo<Option<int>>)

  /** `status` defaults to "agendado" when the client leaves it out. */
  datatype BanhoTosaCreate = BanhoTosaCreate(
    data_hora: DataHora, tipo_servico: string, status: string, valor: Option<int>,
    observacoes: Option<string>, duracao_estimada: Option<int>, dono_id: int, animal_id: int)

  /** Every field optional; neither owner nor animal can be changed. */
  datatype BanhoTosaUpdate = BanhoTosaUpdate(
    data_hora: Campo<DataHora>, tipo_servico: Campo<Option<string>>, status: Campo<Option<string>>,
    valor: Campo<Option<int>>, observacoes: Campo<Option<string>>, duracao_estimada: Campo<Option<int>>)

  const StatusConsultaPadrao := "agendada"
  const StatusServicoPadrao := "agendado"

  /** A client that omits `status` gets the schema default. */
  function NovaConsulta(data_hora: DataHora, motivo: string, dono_id: int, animal_id: int): (c: ConsultaCreate)
    ensures c.status == "agendada" && c.observacoes == None && c.valor == None
  {
    ConsultaCreate(data_hora, motivo, None, StatusConsultaPadrao, None, dono_id, animal_id)
  }

  /** A client that omits `status` gets the schema default. */
  function NovoServico(data_hora: DataHora, tipo_servico: string, dono_id: int, animal_id: int): (s: BanhoTosaCreate)
    ensures s.status == "agendado" && s.valor == None && s.observacoes == None && s.duracao_estimada == None
  {
    BanhoTosaCreate(data_hora, tipo_servico, StatusServicoPadrao, None, None, None, dono_id, animal_id)
  }

  /** The text a nullable string field hands to a normaliser: `None` and ""
      both take its `if not value` branch. */
  function TextoOuVazio(o: Option<string>): string {
    if o.Some? then o.value else ""
  }
}
