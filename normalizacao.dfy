/** The lookup that every enum normaliser of the routers performs
    (`normalizar_status`, `normalizar_tipo_servico`,
    `normalizar_status_consulta`): an empty value gives the default; otherwise
    the raw value is looked up in a table of accepted spellings, then its
    `strip().lower()` form, then that form is kept if it is already one of the
    valid values; anything else gives the default. */
module Normalizacao {
  import opened Text

  /** The lower-cased, trimmed form Python computes as `str(value).strip().lower()`. */
  function Forma(value: string): string { PyLower(PyStrip(value)) }

  /** A spelling without surrounding whitespace only needs lower-casing. */
  lemma FormaSemBordas(s: string)
    requires s != [] ==> !IsPySpace(s[0]) && !IsPySpace(s[|s| - 1])
    ensures Forma(s) == PyLower(s)
  {
    PyStripKeeps(s);
  }

  /** The form of a spelling with no surrounding whitespace is its lower-casing. */
  lemma FormaLiteral(k: string, f: string)
    requires k != [] ==> !IsPySpace(k[0]) && !IsPySpace(k[|k| - 1])
    requires PyLower(k) == f
    ensures Forma(k) == f
  {
    FormaSemBordas(k);
  }

  function Normalizar(value: string, mapa: map<string, string>, validos: seq<string>, padrao: string): string {
    if value == "" then padrao
    else
      var v := Forma(value);
      if value in mapa then mapa[value]
      else if v in mapa then mapa[v]
      else if v in validos then v
      else padrao
  }

  /** What makes a normaliser's constants sensible: the default and every table
      entry are valid values, and each valid value is its own table entry. */
  ghost predicate BemFormado(mapa: map<string, string>, validos: seq<string>, padrao: string) {
    && padrao in validos
    && "" !in mapa
    && (forall k | k in mapa :: mapa[k] in validos)
    && (forall c | c in validos :: c in mapa && mapa[c] == c)
  }

  /** Every raw-case key means the same as its `strip().lower()` form. */
  ghost predicate Coerente(mapa: map<string, string>) {
    forall k {:trigger Forma(k)} | k in mapa :: Forma(k) in mapa && mapa[Forma(k)] == mapa[k]
  }

  /** The value a trimmed, lower-cased spelling stands for: its table entry, or
      the default. */
  function Canonica(v: string, mapa: map<string, string>, padrao: string): string {
    if v in mapa then mapa[v] else padrao
  }

  lemma NormalizarValido(value: string, mapa: map<string, string>, validos: seq<string>, padrao: string)
    requires BemFormado(mapa, validos, padrao)
    ensures Normalizar(value, mapa, validos, padrao) in validos
  {
  }

  /** A valid value is left as it is, so normalising twice is normalising once. */
  lemma NormalizarIdempotente(value: string, mapa: map<string, string>, validos: seq<string>, padrao: string)
    requires BemFormado(mapa, validos, padrao)
    ensures Normalizar(Normalizar(value, mapa, validos, padrao), mapa, validos, padrao)
         == Normalizar(value, mapa, validos, padrao)
  {
    var r := Normalizar(value, mapa, validos, padrao);
    NormalizarValido(value, mapa, validos, padrao);
    assert r != "" && r in mapa && mapa[r] == r;
  }

  /** The result depends on nothing but `strip().lower()` of the input. */
  lemma NormalizarPelaForma(value: string, mapa: map<string, string>, validos: seq<string>, padrao: string)
    requires BemFormado(mapa, validos, padrao) && Coerente(mapa)
    ensures Normalizar(value, mapa, validos, padrao) == Canonica(Forma(value), mapa, padrao)
  {
    if value == "" {
      assert Forma(value) == "";
    }
  }
}
