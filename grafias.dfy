/** The `strip().lower()` form of every spelling with capitals that the
    routers' normalisation tables accept, one spelling per lemma. */
module Grafias {
  import opened Normalizacao

  lemma Forma_AGENDADO(k: string)
    requires k == "AGENDADO"
    ensures Forma(k) == "agendado"
  {
    FormaLiteral(k, "agendado");
  }

  lemma Forma_EM_ANDAMENTO(k: string)
    requires k == "EM_ANDAMENTO"
    ensures Forma(k) == "em_andamento"
  {
    FormaLiteral(k, "em_andamento");
  }

  lemma Forma_Em_Andamento(k: string)
    requires k == "Em_Andamento"
    ensures Forma(k) == "em_andamento"
  {
    FormaLiteral(k, "em_andamento");
  }

  lemma Forma_CONCLUIDO(k: string)
    requires k == "CONCLUIDO"
    ensures Forma(k) == "concluido"
  {
    FormaLiteral(k, "concluido");
  }

  lemma Forma_CANCELADO(k: string)
    requires k == "CANCELADO"
    ensures Forma(k) == "cancelado"
  {
    FormaLiteral(k, "cancelado");
  }

  lemma Forma_AGENDADA(k: string)
    requires k == "AGENDADA"
    ensures Forma(k) == "agendada"
  {
    FormaLiteral(k, "agendada");
  }

  lemma Forma_CONCLUIDA(k: string)
    requires k == "CONCLUIDA"
    ensures Forma(k) == "concluida"
  {
    FormaLiteral(k, "concluida");
  }

  lemma Forma_CANCELADA(k: string)
    requires k == "CANCELADA"
    ensures Forma(k) == "cancelada"
  {
    FormaLiteral(k, "cancelada");
  }

  lemma Forma_BANHO(k: string)
    requires k == "BANHO"
    ensures Forma(k) == "banho"
  {
    FormaLiteral(k, "banho");
  }

  lemma Forma_TOSA(k: string)
    requires k == "TOSA"
    ensures Forma(k) == "tosa"
  {
    FormaLiteral(k, "tosa");
  }

  lemma Forma_BANHO_E_TOSA(k: string)
    requires k == "BANHO_E_TOSA"
    ensures Forma(k) == "banho_e_tosa"
  {
    FormaLiteral(k, "banho_e_tosa");
  }

  lemma Forma_Banho_e_Tosa(k: string)
    requires k == "Banho_e_Tosa"
    ensures Forma(k) == "banho_e_tosa"
  {
    FormaLiteral(k, "banho_e_tosa");
  }

  lemma Forma_Banho_e_Tosa_com_espacos(k: string)
    requires k == "Banho e Tosa"
    ensures Forma(k) == "banho e tosa"
  {
    FormaLiteral(k, "banho e tosa");
  }
}
