/** The dashboard script: phone formatting and the as-you-type mask, the
    id-to-name lookups and per-owner counts over the client-side caches, the
    owner-dependent animal select, the required-field gates of the two
    booking forms, and the status and type label maps. */
module App {
  import opened Common
  import opened Text
  import opened Models
  import ConsultasRouter
  import BanhoTosaRouter

  function Min(a: int, b: int): int { if a <= b then a else b }

  // ---------------------------------------------------------------------
  // Phone numbers

  /** `formatarTelefone`: 11 digits become "(DD) NNNNN-NNNN", 10 digits
      "(DD) NNNN-NNNN"; any other count leaves the text as it was. */
  function FormatarTelefone(telefone: string): (r: string)
    ensures telefone == "" ==> r == ""
    ensures |Digits(telefone)| != 10 && |Digits(telefone)| != 11 ==> r == telefone
    ensures |Digits(telefone)| == 11 ==> |r| == 15 && r[0] == '(' && r[3..5] == ") " && r[10] == '-'
    ensures |Digits(telefone)| == 10 ==> |r| == 14 && r[0] == '(' && r[3..5] == ") " && r[9] == '-'
  {
    if telefone == "" then ""
    else
      var numeros := Digits(telefone);
      if |numeros| == 11 then "(" + numeros[..2] + ") " + numeros[2..7] + "-" + numeros[7..]
      else if |numeros| == 10 then "(" + numeros[..2] + ") " + numeros[2..6] + "-" + numeros[6..]
      else telefone
  }

  /** Text of `k` characters none of which is a digit adds nothing to `Digits`. */
  lemma SemDigitosAFrente(p: string, x: string)
    requires forall i | 0 <= i < |p| :: !IsDigit(p[i])
    ensures Digits(p + x) == Digits(x)
  {
    DigitsConcat(p, x);
    DigitsSemDigitos(p);
  }

  lemma {:induction false} DigitsSemDigitos(p: string)
    requires forall i | 0 <= i < |p| :: !IsDigit(p[i])
    ensures Digits(p) == []
  {
    if p != [] { DigitsSemDigitos(p[1..]); }
  }

  /** "(" + a + ") " + b: the first two digits, the separator, the rest. */
  lemma {:induction false} DigitosDoDdd(a: string, b: string)
    requires AllDigits(a) && AllDigits(b)
    ensures Digits("(" + a + ") " + b) == a + b
  {
    var sep := ") " + b;
    assert Digits(sep) == b by {
      SemDigitosAFrente(") ", b);
      DigitsOfDigits(b);
    }
    assert "(" + a + ") " + b == "(" + (a + sep);
    SemDigitosAFrente("(", a + sep);
    DigitsConcat(a, sep);
    DigitsOfDigits(a);
  }

  /** "(" + a + ") " + b + "-" + c: the punctuation contributes no digits. */
  lemma {:induction false} DigitosDoFormatoCompleto(a: string, b: string, c: string)
    requires AllDigits(a) && AllDigits(b) && AllDigits(c)
    ensures Digits("(" + a + ") " + b + "-" + c) == a + b + c
  {
    var cabeca := "(" + a + ") " + b;
    DigitosDoDdd(a, b);
    assert Digits("-" + c) == c by {
      SemDigitosAFrente("-", c);
      DigitsOfDigits(c);
    }
    assert cabeca + "-" + c == cabeca + ("-" + c);
    DigitsConcat(cabeca, "-" + c);
  }

  /** The same, for the three pieces a digit string is cut into. */
  lemma DigitosDoFormato(n: string, k: nat)
    requires AllDigits(n) && 2 <= k <= |n|
    ensures Digits("(" + n[..2] + ") " + n[2..k] + "-" + n[k..]) == n
  {
    DigitosDoFormatoCompleto(n[..2], n[2..k], n[k..]);
    assert n[..2] + n[2..k] + n[k..] == n;
  }

  /** Formatting a 10- or 11-digit number keeps exactly its digits, in order. */
  lemma FormatarTelefonePreservaDigitos(telefone: string)
    requires |Digits(telefone)| == 10 || |Digits(telefone)| == 11
    ensures Digits(FormatarTelefone(telefone)) == Digits(telefone)
  {
    var n := Digits(telefone);
    DigitosDoFormato(n, if |n| == 11 then 7 else 6);
  }

  /** Formatting an already formatted number changes nothing. */
  lemma FormatarTelefoneIdempotente(telefone: string)
    ensures FormatarTelefone(FormatarTelefone(telefone)) == FormatarTelefone(telefone)
  {
    var n := Digits(telefone);
    if telefone != "" && (|n| == 10 || |n| == 11) {
      FormatarTelefonePreservaDigitos(telefone);
    }
  }

  /** The mask shaped from a run of digits: "(" and the first digits, then
      ") " after two, then "-" after seven; digits past the eleventh are
      dropped. */
  function MascaraDosDigitos(v: string): string {
    if |v| == 0 then ""
    else if |v| <= 2 then "(" + v
    else if |v| <= 7 then "(" + v[..2] + ") " + v[2..]
    else "(" + v[..2] + ") " + v[2..7] + "-" + v[7..Min(|v|, 11)]
  }

  /** What the phone input holds after an `input` event: the mask of the
      digits typed so far. */
  function Mascara(valor: string): string { MascaraDosDigitos(Digits(valor)) }

  /** The mask keeps the first min(n, 11) digits of the input, in order. */
  lemma DigitosDaMascara(valor: string)
    ensures Digits(Mascara(valor)) == Digits(valor)[..Min(|Digits(valor)|, 11)]
  {
    var v := Digits(valor);
    if |v| == 0 {
    } else if |v| <= 2 {
      SemDigitosAFrente("(", v);
      DigitsOfDigits(v);
    } else if |v| <= 7 {
      DigitosDoDdd(v[..2], v[2..]);
      assert v[..2] + v[2..] == v;
    } else {
      var w := v[..Min(|v|, 11)];
      assert AllDigits(w);
      assert w[..2] == v[..2] && w[2..7] == v[2..7] && w[7..] == v[7..Min(|v|, 11)];
      DigitosDoFormato(w, 7);
    }
  }

  /** Re-applying the mask to its own output changes nothing. */
  lemma MascaraIdempotente(valor: string)
    ensures Mascara(Mascara(valor)) == Mascara(valor)
  {
    var v := Digits(valor);
    DigitosDaMascara(valor);
    var w := v[..Min(|v|, 11)];
    assert Digits(Mascara(valor)) == w;
    if |v| > 11 {
      assert w[..2] == v[..2] && w[2..7] == v[2..7] && w[7..Min(|w|, 11)] == v[7..11];
    } else {
      assert w == v;
    }
  }

  /** For eleven digits the mask and `formatarTelefone` agree. */
  lemma MascaraConcordaComFormatar(valor: string)
    requires |Digits(valor)| == 11
    ensures Mascara(valor) == FormatarTelefone(valor)
  {
    var v := Digits(valor);
    assert valor != "";
    assert v[7..Min(|v|, 11)] == v[7..];
  }

  /** A phone input under `aplicarMascaraTelefone`. */
  class CampoTelefone {
    var valor: string

    constructor (inicial: string)
      ensures valor == inicial
    {
      valor := inicial;
    }

    /** The `input` listener: strip the non-digits, reshape by count, write back. */
    method AoDigitar()
      modifies this
      ensures valor == Mascara(old(valor))
    {
      var value := Digits(valor);
      if |value| > 0 {
        if |value| <= 2 {
          value := "(" + value;
        } else if |value| <= 7 {
          value := "(" + value[..2] + ") " + value[2..];
        } else {
          value := "(" + value[..2] + ") " + value[2..7] + "-" + value[7..Min(|value|, 11)];
        }
      }
      valor := value;
    }
  }

  // ---------------------------------------------------------------------
  // Caches

  /** Number of cached animals whose `dono_id` is `donoId`. */
  function QuantosDoDono(animais: seq<Animal>, donoId: int): (n: nat)
    ensures n <= |animais|
  {
    if animais == [] then 0
    else QuantosDoDono(animais[..|animais| - 1], donoId) + (if animais[|animais| - 1].dono_id == donoId then 1 else 0)
  }

  /** `contagemAnimais[id] || 0`. */
  function ContagemOuZero(contagem: map<int, nat>, id: int): nat {
    if id in contagem then contagem[id] else 0
  }

  /** Position of the first entry whose id is `n`, or the length when none. */
  function PrimeiroComId<T>(cache: seq<T>, idDe: T -> int, n: int): (r: nat)
    ensures r <= |cache|
    ensures r < |cache| ==> idDe(cache[r]) == n
    ensures forall j | 0 <= j < r :: idDe(cache[j]) != n
  {
    if cache == [] then 0 else if idDe(cache[0]) == n then 0 else 1 + PrimeiroComId(cache[1..], idDe, n)
  }

  function NaoEncontrado(id: string): string { "ID " + id + " não encontrado" }

  /** Ids unique within a cache, as the server's primary keys are. */
  predicate IdsDistintos<T>(cache: seq<T>, idDe: T -> int) {
    forall i, j | 0 <= i < j < |cache| :: idDe(cache[i]) != idDe(cache[j])
  }

  /** The module-level caches the dashboard reloads from the API. */
  class Caches {
    var donosCache: seq<Dono>
    var animaisCache: seq<Animal>

    constructor ()
      ensures donosCache == [] && animaisCache == []
    {
      donosCache := [];
      animaisCache := [];
    }

    /** `getNomeDonoById`: the name of the first cached owner whose id is
        `parseInt(donoId)`, else "ID <donoId> não encontrado". */
    function NomeDonoPorId(donoId: string): (r: string)
      reads this
      ensures (ParseInt(donoId).Some? && exists i | 0 <= i < |donosCache| :: donosCache[i].id == ParseInt(donoId).value) ==>
                exists i | 0 <= i < |donosCache| ::
                  donosCache[i].id == ParseInt(donoId).value && r == donosCache[i].nome
                  && forall j | 0 <= j < i :: donosCache[j].id != ParseInt(donoId).value
      ensures (ParseInt(donoId).None? || forall i | 0 <= i < |donosCache| :: donosCache[i].id != ParseInt(donoId).value) ==>
                r == NaoEncontrado(donoId)
    {
      match ParseInt(donoId)
      case None => NaoEncontrado(donoId)
      case Some(n) =>
        var i := PrimeiroComId(donosCache, (d: Dono) => d.id, n);
        if i < |donosCache| then donosCache[i].nome else NaoEncontrado(donoId)
    }

    /** `getNomeAnimalById`, the same lookup over the animal cache. */
    function NomeAnimalPorId(animalId: string): (r: string)
      reads this
      ensures (ParseInt(animalId).Some? && exists i | 0 <= i < |animaisCache| :: animaisCache[i].id == ParseInt(animalId).value) ==>
                exists i | 0 <= i < |animaisCache| ::
                  animaisCache[i].id == ParseInt(animalId).value && r == animaisCache[i].nome
                  && forall j | 0 <= j < i :: animaisCache[j].id != ParseInt(animalId).value
      ensures (ParseInt(animalId).None? || forall i | 0 <= i < |animaisCache| :: animaisCache[i].id != ParseInt(animalId).value) ==>
                r == NaoEncontrado(animalId)
    {
      match ParseInt(animalId)
      case None => NaoEncontrado(animalId)
      case Some(n) =>
        var i := PrimeiroComId(animaisCache, (a: Animal) => a.id, n);
        if i < |animaisCache| then animaisCache[i].nome else NaoEncontrado(animalId)
    }

    /** The part of `carregarDonos` that is not drawing: the owner cache is
        replaced by the fetched list, the animals are counted per owner in
        a dictionary, and each listed owner gets its count (0 when absent). */
    method CarregarDonos(dados: seq<Dono>) returns (numAnimais: seq<nat>)
      modifies this`donosCache
      ensures donosCache == dados
      ensures |numAnimais| == |dados|
      ensures forall i | 0 <= i < |dados| :: numAnimais[i] == QuantosDoDono(animaisCache, dados[i].id)
    {
      donosCache := dados;
      var contagem: map<int, nat> := map[];
      for i := 0 to |animaisCache|
        invariant forall k :: ContagemOuZero(contagem, k) == QuantosDoDono(animaisCache[..i], k)
      {
        var animal := animaisCache[i];
        contagem := contagem[animal.dono_id := ContagemOuZero(contagem, animal.dono_id) + 1];
        assert animaisCache[..i + 1][..i] == animaisCache[..i];
      }
      assert animaisCache[..|animaisCache|] == animaisCache;
      numAnimais := [];
      for i := 0 to |dados|
        invariant |numAnimais| == i
        invariant forall j | 0 <= j < i :: numAnimais[j] == QuantosDoDono(animaisCache, dados[j].id)
      {
        numAnimais := numAnimais + [ContagemOuZero(contagem, dados[i].id)];
      }
    }

    /** `carregarAnimais`' cache update. */
    method CarregarAnimais(dados: seq<Animal>)
      modifies this`animaisCache
      ensures animaisCache == dados
    {
      animaisCache := dados;
    }
  }

  /** With unique ids, the first entry carrying an entry's id is that entry. */
  lemma {:induction false} PrimeiroComIdUnico<T>(cache: seq<T>, idDe: T -> int, i: int)
    requires 0 <= i < |cache| && IdsDistintos(cache, idDe)
    ensures PrimeiroComId(cache, idDe, idDe(cache[i])) == i
  {
    var r := PrimeiroComId(cache, idDe, idDe(cache[i]));
    assert r <= i;
  }

  /** A name shown in a table row is found again from the id's own text:
      with unique ids, the lookup of `${dono.id}` gives that owner's name. */
  lemma NomeDonoPeloProprioId(c: Caches, i: int)
    requires 0 <= i < |c.donosCache| && IdsDistintos(c.donosCache, (d: Dono) => d.id)
    ensures c.NomeDonoPorId(IntToString(c.donosCache[i].id)) == c.donosCache[i].nome
  {
    ParseIntOfIntToString(c.donosCache[i].id);
    PrimeiroComIdUnico(c.donosCache, (d: Dono) => d.id, i);
  }

  lemma NomeAnimalPeloProprioId(c: Caches, i: int)
    requires 0 <= i < |c.animaisCache| && IdsDistintos(c.animaisCache, (a: Animal) => a.id)
    ensures c.NomeAnimalPorId(IntToString(c.animaisCache[i].id)) == c.animaisCache[i].nome
  {
    ParseIntOfIntToString(c.animaisCache[i].id);
    PrimeiroComIdUnico(c.animaisCache, (a: Animal) => a.id, i);
  }

  /** Sum of the per-owner counts over a list of owners. */
  function TotalDosDonos(animais: seq<Animal>, donos: seq<Dono>): nat {
    if donos == [] then 0 else QuantosDoDono(animais, donos[0].id) + TotalDosDonos(animais, donos[1..])
  }

  /** How many of the owners carry id `x`. */
  function DonosComId(donos: seq<Dono>, x: int): nat {
    if donos == [] then 0 else (if donos[0].id == x then 1 else 0) + DonosComId(donos[1..], x)
  }

  lemma {:induction false} TotalAoAcrescentar(animais: seq<Animal>, a: Animal, donos: seq<Dono>)
    ensures TotalDosDonos(animais + [a], donos) == TotalDosDonos(animais, donos) + DonosComId(donos, a.dono_id)
  {
    assert (animais + [a])[..|animais + [a]| - 1] == animais;
    if donos != [] {
      TotalAoAcrescentar(animais, a, donos[1..]);
    }
  }

  lemma {:induction false} DonosSemId(donos: seq<Dono>, x: int)
    requires forall i | 0 <= i < |donos| :: donos[i].id != x
    ensures DonosComId(donos, x) == 0
  {
    if donos != [] {
      assert forall i | 0 <= i < |donos| - 1 :: donos[1..][i] == donos[i + 1];
      DonosSemId(donos[1..], x);
    }
  }

  lemma {:induction false} DonosComIdNoMaximoUm(donos: seq<Dono>, x: int)
    requires IdsDistintos(donos, (d: Dono) => d.id)
    ensures DonosComId(donos, x) <= 1
  {
    if donos != [] {
      assert forall i | 0 <= i < |donos| - 1 :: donos[1..][i] == donos[i + 1];
      if donos[0].id == x {
        assert forall i | 0 <= i < |donos| - 1 :: donos[1..][i].id != x by {
          forall i | 0 <= i < |donos| - 1 ensures donos[1..][i].id != x {
            assert donos[0].id != donos[i + 1].id;
          }
        }
        DonosSemId(donos[1..], x);
      } else {
        assert IdsDistintos(donos[1..], (d: Dono) => d.id) by {
          forall i, j | 0 <= i < j < |donos| - 1 ensures donos[1..][i].id != donos[1..][j].id {
            assert donos[i + 1].id != donos[j + 1].id;
          }
        }
        DonosComIdNoMaximoUm(donos[1..], x);
      }
    }
  }

  /** With unique owner ids the badges shown add up to at most the number
      of cached animals (animals whose owner is not listed are not shown). */
  lemma {:induction false} TotalDosDonosNoMaximo(animais: seq<Animal>, donos: seq<Dono>)
    requires IdsDistintos(donos, (d: Dono) => d.id)
    ensures TotalDosDonos(animais, donos) <= |animais|
  {
    if animais == [] {
      TotalSemAnimais(donos);
    } else {
      var resto, a := animais[..|animais| - 1], animais[|animais| - 1];
      assert animais == resto + [a];
      TotalDosDonosNoMaximo(resto, donos);
      TotalAoAcrescentar(resto, a, donos);
      DonosComIdNoMaximoUm(donos, a.dono_id);
    }
  }

  lemma {:induction false} TotalSemAnimais(donos: seq<Dono>)
    ensures TotalDosDonos([], donos) == 0
  {
    if donos != [] { TotalSemAnimais(donos[1..]); }
  }

  /** The badges `carregarDonos` draws are the counts `TotalDosDonos` adds up. */
  function Soma(xs: seq<nat>): nat {
    if xs == [] then 0 else xs[0] + Soma(xs[1..])
  }

  lemma {:induction false} SomaDosBadges(animais: seq<Animal>, donos: seq<Dono>, numAnimais: seq<nat>)
    requires |numAnimais| == |donos|
    requires forall i | 0 <= i < |donos| :: numAnimais[i] == QuantosDoDono(animais, donos[i].id)
    ensures Soma(numAnimais) == TotalDosDonos(animais, donos)
  {
    if donos != [] {
      SomaDosBadges(animais, donos[1..], numAnimais[1..]);
    }
  }

  // ---------------------------------------------------------------------
  // The owner-dependent animal select

  /** `animaisCache.filter(animal => animal.dono_id == donoId)`, where the
      loose `==` compares the number with the select's text converted. */
  function FiltrarPorDono(animais: seq<Animal>, donoId: string): (r: seq<Animal>)
    ensures |r| <= |animais|
  {
    if animais == [] then []
    else
      var ultimo := animais[|animais| - 1];
      FiltrarPorDono(animais[..|animais| - 1], donoId)
        + (if ToNumber(donoId) == Some(ultimo.dono_id) then [ultimo] else [])
  }

  /** The filter keeps exactly the cached animals of that owner. */
  lemma {:induction false} FiltrarPorDonoPertence(animais: seq<Animal>, donoId: string, a: Animal)
    ensures a in FiltrarPorDono(animais, donoId) <==> a in animais && ToNumber(donoId) == Some(a.dono_id)
  {
    if animais != [] {
      var resto := animais[..|animais| - 1];
      FiltrarPorDonoPertence(resto, donoId, a);
      assert animais == resto + [animais[|animais| - 1]];
    }
  }

  /** The filter keeps cache order: it distributes over concatenation. */
  lemma {:induction false} FiltrarPorDonoConcat(a: seq<Animal>, b: seq<Animal>, donoId: string)
    ensures FiltrarPorDono(a + b, donoId) == FiltrarPorDono(a, donoId) + FiltrarPorDono(b, donoId)
  {
    if b == [] {
      assert a + b == a;
    } else {
      var b0 := b[..|b| - 1];
      assert (a + b)[..|a + b| - 1] == a + b0;
      assert (a + b)[|a + b| - 1] == b[|b| - 1];
      FiltrarPorDonoConcat(a, b0, donoId);
    }
  }

  /** Picking an owner from the select (whose option values are the ids'
      text) lists as many animals as that owner's badge shows. */
  lemma {:induction false} FiltroConcordaComContagem(animais: seq<Animal>, donoId: int)
    ensures |FiltrarPorDono(animais, IntToString(donoId))| == QuantosDoDono(animais, donoId)
  {
    ToNumberOfIntToString(donoId);
    if animais != [] {
      FiltroConcordaComContagem(animais[..|animais| - 1], donoId);
    }
  }

  /** The animal select: disabled until an owner is chosen, then the options. */
  datatype SelectAnimal = Desabilitado | Opcoes(animais: seq<Animal>)

  /** `carregarAnimaisDoDonoConsulta` / `carregarAnimaisDoDonoServico`. */
  function AnimaisDoDono(animaisCache: seq<Animal>, donoId: string): (r: SelectAnimal)
    ensures r.Desabilitado? <==> donoId == ""
    ensures r.Opcoes? ==> forall a :: a in r.animais <==> a in animaisCache && ToNumber(donoId) == Some(a.dono_id)
  {
    if donoId == "" then Desabilitado
    else
      var opcoes := FiltrarPorDono(animaisCache, donoId);
      assert forall a :: a in opcoes <==> a in animaisCache && ToNumber(donoId) == Some(a.dono_id) by {
        forall a ensures a in opcoes <==> a in animaisCache && ToNumber(donoId) == Some(a.dono_id) {
          FiltrarPorDonoPertence(animaisCache, donoId, a);
        }
      }
      Opcoes(opcoes)
  }

  // ---------------------------------------------------------------------
  // Booking forms

  /** The values read from the appointment form. */
  datatype FormConsulta = FormConsulta(
    donoId: string, animalId: string, dataHora: string, motivo: string,
    status: string, observacoes: string)

  /** The body `salvarConsulta` posts (`valor` aside); an id that
      `parseInt` cannot read is `NaN`, sent as null. */
  datatype EnvioConsulta = EnvioConsulta(
    dono_id: Option<int>, animal_id: Option<int>, data_hora: string, motivo: string,
    status: string, observacoes: Option<string>)

  /** `salvarConsulta`: nothing is posted while a required field is empty. */
  function SalvarConsulta(f: FormConsulta): (r: Option<EnvioConsulta>)
    ensures r.None? <==> f.donoId == "" || f.animalId == "" || f.dataHora == "" || f.motivo == ""
    ensures r.Some? ==> r.value.data_hora == f.dataHora && r.value.motivo == f.motivo && r.value.status == f.status
    ensures r.Some? ==> (r.value.observacoes.None? <==> f.observacoes == "")
    ensures r.Some? ==> r.value.dono_id == ParseInt(f.donoId) && r.value.animal_id == ParseInt(f.animalId)
  {
    if f.donoId == "" || f.animalId == "" || f.dataHora == "" || f.motivo == "" then None
    else Some(EnvioConsulta(
      ParseInt(f.donoId), ParseInt(f.animalId), f.dataHora, f.motivo, f.status,
      if f.observacoes == "" then None else Some(f.observacoes)))
  }

  /** The values read from the grooming form. */
  datatype FormServico = FormServico(
    donoId: string, animalId: string, tipoServico: string, dataHora: string,
    status: string, duracao: string, observacoes: string)

  /** The body `salvarServico` posts (`valor` aside). */
  datatype EnvioServico = EnvioServico(
    dono_id: Option<int>, animal_id: Option<int>, tipo_servico: string, data_hora: string,
    status: string, duracao_estimada: Option<int>, observacoes: Option<string>)

  /** `salvarServico`: nothing is posted while a required field is empty. */
  function SalvarServico(f: FormServico): (r: Option<EnvioServico>)
    ensures r.None? <==> f.donoId == "" || f.animalId == "" || f.tipoServico == "" || f.dataHora == ""
    ensures r.Some? ==> r.value.tipo_servico == f.tipoServico && r.value.data_hora == f.dataHora && r.value.status == f.status
    ensures r.Some? ==> r.value.dono_id == ParseInt(f.donoId) && r.value.animal_id == ParseInt(f.animalId)
    ensures r.Some? ==> (f.duracao == "" ==> r.value.duracao_estimada.None?)
                        && (f.duracao != "" ==> r.value.duracao_estimada == ParseInt(f.duracao))
    ensures r.Some? ==> (r.value.observacoes.None? <==> f.observacoes == "")
  {
    if f.donoId == "" || f.animalId == "" || f.tipoServico == "" || f.dataHora == "" then None
    else Some(EnvioServico(
      ParseInt(f.donoId), ParseInt(f.animalId), f.tipoServico, f.dataHora, f.status,
      if f.duracao == "" then None else ParseInt(f.duracao),
      if f.observacoes == "" then None else Some(f.observacoes)))
  }

  /** Choosing an owner and an animal from the selects, whose option values
      are the ids' text, posts exactly those ids. */
  lemma SelecoesViramIds(f: FormConsulta, g: FormServico, donoId: int, animalId: int)
    requires f.donoId == IntToString(donoId) && f.animalId == IntToString(animalId)
    requires f.dataHora != "" && f.motivo != ""
    requires g.donoId == IntToString(donoId) && g.animalId == IntToString(animalId)
    requires g.tipoServico != "" && g.dataHora != ""
    ensures SalvarConsulta(f).Some? && SalvarConsulta(f).value.dono_id == Some(donoId)
            && SalvarConsulta(f).value.animal_id == Some(animalId)
    ensures SalvarServico(g).Some? && SalvarServico(g).value.dono_id == Some(donoId)
            && SalvarServico(g).value.animal_id == Some(animalId)
  {
    ParseIntOfIntToString(donoId);
    ParseIntOfIntToString(animalId);
    assert IntToString(donoId) != "" && IntToString(animalId) != "";
  }

  // ---------------------------------------------------------------------
  // Label maps

  const RotulosStatusConsulta: map<string, string> := map[
    "AGENDADA" := "Agendada", "EM_ANDAMENTO" := "Em Andamento",
    "CONCLUIDA" := "Concluída", "CANCELADA" := "Cancelada"]

  const RotulosStatusServico: map<string, string> := map[
    "AGENDADO" := "Agendado", "EM_ANDAMENTO" := "Em Andamento",
    "CONCLUIDO" := "Concluído", "CANCELADO" := "Cancelado"]

  const RotulosTipoServico: map<string, string> := map[
    "BANHO" := "🚿 Banho", "TOSA" := "✂️ Tosa", "BANHO_E_TOSA" := "🚿✂️ Banho e Tosa"]

  /** `mapa[valor] || valor`. */
  function RotuloOuValor(mapa: map<string, string>, valor: string): (r: string)
    ensures valor !in mapa ==> r == valor
    ensures valor in mapa && mapa[valor] != "" ==> r == mapa[valor]
  {
    if valor in mapa && mapa[valor] != "" then mapa[valor] else valor
  }

  function FormatarStatus(status: string): string { RotuloOuValor(RotulosStatusConsulta, status) }

  function FormatarStatusServico(status: string): string { RotuloOuValor(RotulosStatusServico, status) }

  function FormatarTipoServico(tipo: string): string { RotuloOuValor(RotulosTipoServico, tipo) }

  lemma StatusDeConsultaSemRotulo(st: string)
    requires st in ConsultasRouter.StatusValidos
    ensures st !in RotulosStatusConsulta
  {
    if st == "agendada" {} else if st == "em_andamento" {} else if st == "concluida" {} else if st == "cancelada" {}
  }

  lemma StatusDeServicoSemRotulo(st: string)
    requires st in BanhoTosaRouter.StatusValidos
    ensures st !in RotulosStatusServico
  {
    if st == "agendado" {} else if st == "em_andamento" {} else if st == "concluido" {} else if st == "cancelado" {}
  }

  lemma TipoSemRotulo(t: string)
    requires t in BanhoTosaRouter.TiposValidos
    ensures t !in RotulosTipoServico
  {
    if t == "banho" {} else if t == "tosa" {} else if t == "banho_e_tosa" {}
  }

  /** The label maps are keyed in upper case while the server stores the
      lower-case canonical values, so every stored status and type is shown
      raw; only an upper-case spelling would get its label. */
  lemma RotulosNaoAlcancamValoresGravados(entrada: string)
    ensures FormatarStatus(ConsultasRouter.NormalizarStatusConsulta(entrada))
         == ConsultasRouter.NormalizarStatusConsulta(entrada)
    ensures FormatarStatusServico(BanhoTosaRouter.NormalizarStatus(entrada))
         == BanhoTosaRouter.NormalizarStatus(entrada)
    ensures FormatarTipoServico(BanhoTosaRouter.NormalizarTipo(entrada))
         == BanhoTosaRouter.NormalizarTipo(entrada)
  {
    StatusDeConsultaSemRotulo(ConsultasRouter.NormalizarStatusConsulta(entrada));
    StatusDeServicoSemRotulo(BanhoTosaRouter.NormalizarStatus(entrada));
    TipoSemRotulo(BanhoTosaRouter.NormalizarTipo(entrada));
  }

  /** Only the keys of the maps, the upper-case spellings, get a label, and
      they get theirs. */
  lemma RotulosMaiusculos()
    ensures forall v :: FormatarStatus(v) != v ==> v in RotulosStatusConsulta
    ensures forall v :: FormatarStatusServico(v) != v ==> v in RotulosStatusServico
    ensures forall v :: FormatarTipoServico(v) != v ==> v in RotulosTipoServico
    ensures FormatarStatus("AGENDADA") == "Agendada"
    ensures FormatarStatusServico("CONCLUIDO") == "Concluído"
    ensures FormatarTipoServico("BANHO_E_TOSA") == "🚿✂️ Banho e Tosa"
  {
  }

  // Label maps keyed by the values the server stores

  const RotulosStatusConsultaGravados: map<string, string> := map[
    "agendada" := "Agendada", "em_andamento" := "Em Andamento",
    "concluida" := "Concluída", "cancelada" := "Cancelada"]

  const RotulosStatusServicoGravados: map<string, string> := map[
    "agendado" := "Agendado", "em_andamento" := "Em Andamento",
    "concluido" := "Concluído", "cancelado" := "Cancelado"]

  const RotulosTipoServicoGravados: map<string, string> := map[
    "banho" := "🚿 Banho", "tosa" := "✂️ Tosa", "banho_e_tosa" := "🚿✂️ Banho e Tosa"]

  /** The label lookups keyed by the stored lower-case values. */
  function FormatarStatusGravado(status: string): string { RotuloOuValor(RotulosStatusConsultaGravados, status) }

  function FormatarStatusServicoGravado(status: string): string { RotuloOuValor(RotulosStatusServicoGravados, status) }

  function FormatarTipoServicoGravado(tipo: string): string { RotuloOuValor(RotulosTipoServicoGravados, tipo) }

  lemma StatusDeConsultaComRotulo(st: string)
    requires st in ConsultasRouter.StatusValidos
    ensures FormatarStatusGravado(st) in RotulosStatusConsulta.Values && FormatarStatusGravado(st) != st
  {
    if st == "agendada" {
      assert RotulosStatusConsulta["AGENDADA"] == "Agendada";
    } else if st == "em_andamento" {
      assert RotulosStatusConsulta["EM_ANDAMENTO"] == "Em Andamento";
    } else if st == "concluida" {
      assert RotulosStatusConsulta["CONCLUIDA"] == "Concluída";
    } else if st == "cancelada" {
      assert RotulosStatusConsulta["CANCELADA"] == "Cancelada";
    }
  }

  lemma StatusDeServicoComRotulo(st: string)
    requires st in BanhoTosaRouter.StatusValidos
    ensures FormatarStatusServicoGravado(st) in RotulosStatusServico.Values && FormatarStatusServicoGravado(st) != st
  {
    if st == "agendado" {
      assert RotulosStatusServico["AGENDADO"] == "Agendado";
    } else if st == "em_andamento" {
      assert RotulosStatusServico["EM_ANDAMENTO"] == "Em Andamento";
    } else if st == "concluido" {
      assert RotulosStatusServico["CONCLUIDO"] == "Concluído";
    } else if st == "cancelado" {
      assert RotulosStatusServico["CANCELADO"] == "Cancelado";
    }
  }

  lemma TipoComRotulo(t: string)
    requires t in BanhoTosaRouter.TiposValidos
    ensures FormatarTipoServicoGravado(t) in RotulosTipoServico.Values && FormatarTipoServicoGravado(t) != t
  {
    if t == "banho" {
      assert RotulosTipoServico["BANHO"] == "🚿 Banho";
    } else if t == "tosa" {
      assert RotulosTipoServico["TOSA"] == "✂️ Tosa";
    } else if t == "banho_e_tosa" {
      assert RotulosTipoServico["BANHO_E_TOSA"] == "🚿✂️ Banho e Tosa";
    }
  }

  /** Keyed by the stored values, every status and type the server can
      return is shown with one of the labels the upper-case maps hold, never
      raw. */
  lemma RotulosAlcancamValoresGravados(entrada: string)
    ensures var st := ConsultasRouter.NormalizarStatusConsulta(entrada);
      FormatarStatusGravado(st) in RotulosStatusConsulta.Values && FormatarStatusGravado(st) != st
    ensures var st := BanhoTosaRouter.NormalizarStatus(entrada);
      FormatarStatusServicoGravado(st) in RotulosStatusServico.Values && FormatarStatusServicoGravado(st) != st
    ensures var t := BanhoTosaRouter.NormalizarTipo(entrada);
      FormatarTipoServicoGravado(t) in RotulosTipoServico.Values && FormatarTipoServicoGravado(t) != t
  {
    StatusDeConsultaComRotulo(ConsultasRouter.NormalizarStatusConsulta(entrada));
    StatusDeServicoComRotulo(BanhoTosaRouter.NormalizarStatus(entrada));
    TipoComRotulo(BanhoTosaRouter.NormalizarTipo(entrada));
  }
}
