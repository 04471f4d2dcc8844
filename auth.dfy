/** The login and registration page script: the e-mail shape test, the
    ordered validation chains, the choice of error message after a failed
    request, what a successful login writes to `localStorage`, logout, the
    "already logged in" redirect test and the draft-field keys. */
module Auth {
  import opened Common
  import opened Text

  const MsgPreencha := "⚠️ Por favor, preencha todos os campos!"
  const MsgEmailInvalido := "📧 Por favor, insira um e-mail válido!"
  const MsgNomeCurto := "👤 Seu nome deve ter pelo menos 3 caracteres!"
  const MsgSenhaCurta := "🔐 A senha deve ter pelo menos 6 caracteres!"
  const MsgCredenciais := "🔐 E-mail ou senha incorretos"
  const MsgMuitasTentativas := "⏰ Muitas tentativas. Tente novamente em alguns minutos"
  const MsgErroLogin := "Erro ao fazer login"
  const MsgLoginOk := "🎉 Login realizado com sucesso! Redirecionando..."
  const MsgErroConexao := "🌐 Erro de conexão com o servidor. Verifique sua internet."
  const MsgErroCadastro := "Erro ao criar conta"
  const MsgJaCadastrado := "📧 Este e-mail já está cadastrado. Tente fazer login!"

  // ---------------------------------------------------------------------
  // The e-mail pattern ^[^\s@]+@[^\s@]+\.[^\s@]+$

  /** A character of the class `[^\s@]`. */
  predicate CaractereDeEmail(c: char) { !IsJsSpace(c) && c != '@' }

  predicate SoCaracteresDeEmail(x: string) { forall i | 0 <= i < |x| :: CaractereDeEmail(x[i]) }

  /** What it means for the whole string to match the pattern: three
      non-empty runs of `[^\s@]`, joined by '@' and by a '.'. */
  ghost predicate CasaPadraoEmail(s: string) {
    exists a: string, b: string, c: string ::
      s == a + "@" + b + "." + c && a != [] && b != [] && c != []
      && SoCaracteresDeEmail(a) && SoCaracteresDeEmail(b) && SoCaracteresDeEmail(c)
  }

  /** Position of the first '@', or |s| when there is none. */
  function PrimeiraArroba(s: string): (p: nat)
    ensures p <= |s|
    ensures p < |s| ==> s[p] == '@'
    ensures forall i | 0 <= i < p :: s[i] != '@'
  {
    if s == [] then 0 else if s[0] == '@' then 0 else 1 + PrimeiraArroba(s[1..])
  }

  /** The pattern test as a scan: no whitespace, a first '@' that is not the
      first character and is followed by no other '@', and a '.' in the
      domain that is neither its first nor its last character. */
  predicate EmailValido(s: string) {
    var p := PrimeiraArroba(s);
    (forall i | 0 <= i < |s| :: !IsJsSpace(s[i]))
    && 0 < p < |s|
    && (forall i | p < i < |s| :: s[i] != '@')
    && (exists k | p + 1 < k < |s| - 1 :: s[k] == '.')
  }

  /** Every string the scan accepts matches the pattern. */
  lemma EmailValidoCasaPadrao(s: string)
    requires EmailValido(s)
    ensures CasaPadraoEmail(s)
  {
    var p := PrimeiraArroba(s);
    var k :| p + 1 < k < |s| - 1 && s[k] == '.';
    var a, b, c := s[..p], s[p + 1..k], s[k + 1..];
    assert s == a + "@" + b + "." + c by {
      assert s == s[..p] + [s[p]] + s[p + 1..k] + [s[k]] + s[k + 1..];
    }
    assert SoCaracteresDeEmail(a);
    assert SoCaracteresDeEmail(b) by {
      forall i | 0 <= i < |b| ensures CaractereDeEmail(b[i]) { assert b[i] == s[p + 1 + i]; }
    }
    assert SoCaracteresDeEmail(c) by {
      forall i | 0 <= i < |c| ensures CaractereDeEmail(c[i]) { assert c[i] == s[k + 1 + i]; }
    }
  }

  /** Where the three runs and the two separators sit in the joined string. */
  lemma PosicoesNoEmail(s: string, a: string, b: string, c: string)
    requires s == a + "@" + b + "." + c
    ensures |s| == |a| + |b| + |c| + 2
    ensures s[|a|] == '@' && s[|a| + 1 + |b|] == '.'
    ensures forall i | 0 <= i < |a| :: s[i] == a[i]
    ensures forall i | 0 <= i < |b| :: s[|a| + 1 + i] == b[i]
    ensures forall i | 0 <= i < |c| :: s[|a| + |b| + 2 + i] == c[i]
  {
  }

  /** Every string the pattern matches passes the scan. */
  lemma CasaPadraoEmailValido(s: string)
    requires CasaPadraoEmail(s)
    ensures EmailValido(s)
  {
    var a: string, b: string, c: string :|
      s == a + "@" + b + "." + c && a != [] && b != [] && c != []
      && SoCaracteresDeEmail(a) && SoCaracteresDeEmail(b) && SoCaracteresDeEmail(c);
    PosicoesNoEmail(s, a, b, c);
    var p, k := |a|, |a| + 1 + |b|;
    forall i | 0 <= i < |s| && i != p && i != k ensures CaractereDeEmail(s[i]) {
      if i < p { assert s[i] == a[i]; }
      else if i < k { assert s[p + 1 + (i - p - 1)] == b[i - p - 1]; }
      else { assert s[|a| + |b| + 2 + (i - k - 1)] == c[i - k - 1]; }
    }
    assert PrimeiraArroba(s) == p;
    assert forall i | 0 <= i < |s| :: !IsJsSpace(s[i]);
    assert forall i | p < i < |s| :: s[i] != '@';
    assert p + 1 < k < |s| - 1 && s[k] == '.';
  }

  /** The scan accepts exactly the strings the pattern matches. */
  lemma EmailValidoSeCasaPadrao(s: string)
    ensures EmailValido(s) <==> CasaPadraoEmail(s)
  {
    if EmailValido(s) { EmailValidoCasaPadrao(s); }
    if CasaPadraoEmail(s) { CasaPadraoEmailValido(s); }
  }

  /** A matching address holds exactly one '@'. */
  lemma EmailValidoTemUmaArroba(s: string)
    requires EmailValido(s)
    ensures multiset(s)['@'] == 1
  {
    EmailValidoCasaPadrao(s);
    var a: string, b: string, c: string :|
      s == a + "@" + b + "." + c && a != [] && b != [] && c != []
      && SoCaracteresDeEmail(a) && SoCaracteresDeEmail(b) && SoCaracteresDeEmail(c);
    assert '@' !in a && '@' !in b && '@' !in c;
    assert multiset(s) == multiset(a) + multiset{'@'} + multiset(b) + multiset{'.'} + multiset(c);
  }

  // ---------------------------------------------------------------------
  // Validation chains

  /** Outcome of a validation chain: send the request, or show a message and
      send nothing. */
  datatype Verificacao = Enviar | Recusar(mensagem: string)

  /** JavaScript's `String.prototype.length`: UTF-16 code units, two for a
      character outside the Basic Multilingual Plane. */
  function ComprimentoJs(s: string): (n: nat)
    ensures |s| <= n <= 2 * |s|
  {
    if s == [] then 0 else (if s[0] as int >= 0x10000 then 2 else 1) + ComprimentoJs(s[1..])
  }

  lemma {:induction false} ComprimentoJsBmp(s: string)
    requires forall i | 0 <= i < |s| :: s[i] as int < 0x10000
    ensures ComprimentoJs(s) == |s|
  {
    if s != [] { ComprimentoJsBmp(s[1..]); }
  }

  /** The login button's checks: trimmed e-mail and raw password present,
      then the e-mail pattern. */
  function ValidarLogin(emailDigitado: string, password: string): (r: Verificacao)
    ensures r.Enviar? <==> JsTrim(emailDigitado) != "" && password != "" && EmailValido(JsTrim(emailDigitado))
    ensures (JsTrim(emailDigitado) == "" || password == "") ==> r == Recusar(MsgPreencha)
    ensures JsTrim(emailDigitado) != "" && password != "" && !EmailValido(JsTrim(emailDigitado))
            ==> r == Recusar(MsgEmailInvalido)
  {
    var email := JsTrim(emailDigitado);
    if email == "" || password == "" then Recusar(MsgPreencha)
    else if !EmailValido(email) then Recusar(MsgEmailInvalido)
    else Enviar
  }

  /** The registration button's checks, first failure wins: all three fields
      present, trimmed name of at least 3, e-mail pattern, raw password of
      at least 6 (lengths as JavaScript counts them). */
  function ValidarCadastro(nomeDigitado: string, emailDigitado: string, password: string): (r: Verificacao)
    ensures r.Enviar? <==>
      var nome, email := JsTrim(nomeDigitado), JsTrim(emailDigitado);
      ComprimentoJs(nome) >= 3 && EmailValido(email) && ComprimentoJs(password) >= 6
    ensures r.Recusar? ==> r.mensagem in {MsgPreencha, MsgNomeCurto, MsgEmailInvalido, MsgSenhaCurta}
    ensures JsTrim(nomeDigitado) == "" || JsTrim(emailDigitado) == "" || password == "" ==> r == Recusar(MsgPreencha)
    ensures r == Recusar(MsgSenhaCurta) ==> ComprimentoJs(JsTrim(nomeDigitado)) >= 3 && EmailValido(JsTrim(emailDigitado))
    ensures JsTrim(nomeDigitado) != "" && JsTrim(emailDigitado) != "" && password != "" ==>
      && (ComprimentoJs(JsTrim(nomeDigitado)) < 3 ==> r == Recusar(MsgNomeCurto))
      && (ComprimentoJs(JsTrim(nomeDigitado)) >= 3 && !EmailValido(JsTrim(emailDigitado)) ==> r == Recusar(MsgEmailInvalido))
      && (ComprimentoJs(JsTrim(nomeDigitado)) >= 3 && EmailValido(JsTrim(emailDigitado)) && ComprimentoJs(password) < 6
          ==> r == Recusar(MsgSenhaCurta))
  {
    var nome, email := JsTrim(nomeDigitado), JsTrim(emailDigitado);
    if nome == "" || email == "" || password == "" then Recusar(MsgPreencha)
    else if ComprimentoJs(nome) < 3 then Recusar(MsgNomeCurto)
    else if !EmailValido(email) then Recusar(MsgEmailInvalido)
    else if ComprimentoJs(password) < 6 then Recusar(MsgSenhaCurta)
    else Enviar
  }

  /** The two lower bounds are inclusive: a three-character name and a
      six-character password pass. */
  lemma LimitesDoCadastro(nome: string, email: string, password: string)
    requires |nome| == 3 && !IsJsSpace(nome[0]) && !IsJsSpace(nome[2]) && |password| == 6
    requires forall i | 0 <= i < 3 :: nome[i] as int < 0x10000
    requires forall i | 0 <= i < 6 :: password[i] as int < 0x10000
    requires EmailValido(JsTrim(email))
    ensures ValidarCadastro(nome, email, password) == Enviar
  {
    ComprimentoJsBmp(nome);
    ComprimentoJsBmp(password);
    TrimKeeps(nome, IsJsSpace);
  }

  /** A two-character name counts as long enough when both characters lie
      outside the Basic Multilingual Plane (two emoji, say), since `length`
      counts four code units. */
  lemma NomeDeDoisCaracteresAstrais(nome: string, email: string, password: string)
    requires |nome| == 2 && nome[0] as int >= 0x10000 && nome[1] as int >= 0x10000
    requires EmailValido(JsTrim(email)) && |password| >= 6
    ensures ValidarCadastro(nome, email, password) == Enviar
  {
    DoisCaracteresAstrais(nome);
    TrimKeeps(nome, IsJsSpace);
  }

  lemma DoisCaracteresAstrais(nome: string)
    requires |nome| == 2 && nome[0] as int >= 0x10000 && nome[1] as int >= 0x10000
    ensures ComprimentoJs(nome) == 4 && !IsJsSpace(nome[0]) && !IsJsSpace(nome[1])
  {
    var resto := nome[1..];
    assert |resto| == 1 && resto[0] == nome[1];
    assert ComprimentoJs(resto[1..]) == 0;
  }

  // ---------------------------------------------------------------------
  // Messages after a failed request

  /** `data.detail` is used only when it is truthy: present and non-empty. */
  predicate Verdadeiro(o: Option<string>) { o.Some? && o.value != "" }

  /** Failed login: 401, then 429, then the server's `detail`, then the
      default. */
  function MensagemErroLogin(status: int, detail: Option<string>): (m: string)
    ensures status == 401 ==> m == MsgCredenciais
    ensures status == 429 ==> m == MsgMuitasTentativas
    ensures status != 401 && status != 429 && Verdadeiro(detail) ==> m == detail.value
    ensures status != 401 && status != 429 && !Verdadeiro(detail) ==> m == MsgErroLogin
    ensures m != ""
  {
    if status == 401 then MsgCredenciais
    else if status == 429 then MsgMuitasTentativas
    else if Verdadeiro(detail) then detail.value
    else MsgErroLogin
  }

  /** Failed registration: the "already registered" message exactly when
      the status is 400 and `detail` mentions "email"; otherwise `detail`
      when truthy, else the default. */
  function MensagemErroCadastro(status: int, detail: Option<string>): (m: string)
    ensures status == 400 && Verdadeiro(detail) && Contains(detail.value, "email") ==> m == MsgJaCadastrado
    ensures !(status == 400 && Verdadeiro(detail) && Contains(detail.value, "email")) ==>
              m == (if Verdadeiro(detail) then detail.value else MsgErroCadastro)
    ensures m != ""
  {
    if status == 400 && Verdadeiro(detail) && Contains(detail.value, "email") then MsgJaCadastrado
    else if Verdadeiro(detail) then detail.value
    else MsgErroCadastro
  }

  /** A 400 whose detail does not mention "email" is shown verbatim. */
  lemma Erro400SemEmail(detail: string)
    requires detail != "" && !Contains(detail, "email")
    ensures MensagemErroCadastro(400, Some(detail)) == detail
  {
  }

  /** The check is case-sensitive: "E-mail" does not contain "email". */
  lemma Erro400ComEmailMaiusculo()
    ensures MensagemErroCadastro(400, Some("E-mail já cadastrado")) == "E-mail já cadastrado"
  {
    var d := "E-mail já cadastrado";
    forall i | 0 <= i <= |d| - 5 ensures !OccursAt(d, "email", i) {
      assert d[i..i + 5][0] == d[i];
    }
  }

  // ---------------------------------------------------------------------
  // localStorage and the handlers that write it

  /** The browser's `localStorage`: a string-to-string map. */
  class LocalStorage {
    var itens: map<string, string>

    constructor (iniciais: map<string, string>)
      ensures itens == iniciais
    {
      itens := iniciais;
    }

    /** `getItem`: the stored string, or null. */
    function GetItem(chave: string): (r: Option<string>)
      reads this
      ensures r.Some? <==> chave in itens
      ensures r.Some? ==> r.value == itens[chave]
    {
      if chave in itens then Some(itens[chave]) else None
    }

    method SetItem(chave: string, valor: string)
      modifies this
      ensures itens == old(itens)[chave := valor]
    {
      itens := itens[chave := valor];
    }

    method RemoveItem(chave: string)
      modifies this
      ensures itens == old(itens) - {chave}
    {
      itens := itens - {chave};
    }
  }

  /** What `fetch` followed by `resp.json()` yields: a failure of either
      (reported as a connection error), or a status code with the body's
      `detail` and `access_token`. */
  datatype RespostaLogin = FalhaDeRede | Resposta(status: int, detail: Option<string>, access_token: string)

  /** `resp.ok`. */
  predicate StatusOk(status: int) { 200 <= status <= 299 }

  /** The login button. Nothing is sent unless validation passes; on a 2xx
      answer the token and the trimmed e-mail are stored, so that with a
      non-empty token the login page then redirects; otherwise
      `localStorage` is left as it was. */
  method Entrar(ls: LocalStorage, emailDigitado: string, password: string, resposta: RespostaLogin)
    returns (mensagem: string, enviou: bool)
    modifies ls
    ensures enviou <==> ValidarLogin(emailDigitado, password) == Enviar
    ensures !enviou ==> mensagem == ValidarLogin(emailDigitado, password).mensagem
    ensures enviou && resposta.Resposta? && StatusOk(resposta.status) ==>
              mensagem == MsgLoginOk
              && ls.itens == old(ls.itens)["token" := resposta.access_token]["userEmail" := JsTrim(emailDigitado)]
    ensures enviou && resposta.Resposta? && !StatusOk(resposta.status) ==>
              mensagem == MensagemErroLogin(resposta.status, resposta.detail)
    ensures enviou && resposta.FalhaDeRede? ==> mensagem == MsgErroConexao
    ensures !(enviou && resposta.Resposta? && StatusOk(resposta.status)) ==> ls.itens == old(ls.itens)
    ensures enviou && resposta.Resposta? && StatusOk(resposta.status) && resposta.access_token != "" ==>
              forall pathname: string :: Contains(pathname, "login.html") ==> DeveRedirecionar(ls.GetItem("token"), pathname)
  {
    var v := ValidarLogin(emailDigitado, password);
    if v.Recusar? {
      return v.mensagem, false;
    }
    enviou := true;
    match resposta {
      case FalhaDeRede =>
        mensagem := MsgErroConexao;
      case Resposta(status, detail, token) =>
        if !StatusOk(status) {
          mensagem := MensagemErroLogin(status, detail);
        } else {
          ls.SetItem("token", token);
          ls.SetItem("userEmail", JsTrim(emailDigitado));
          assert ls.GetItem("token") == Some(token);
          if token != "" {
            TokenRedirecionaNoLogin(token);
          }
          mensagem := MsgLoginOk;
        }
    }
  }

  /** The global logout: once confirmed, the token and the e-mail go, and no
      page redirects any more. */
  method Sair(ls: LocalStorage, confirmado: bool)
    modifies ls
    ensures confirmado ==> ls.itens == old(ls.itens) - {"token", "userEmail"}
    ensures !confirmado ==> ls.itens == old(ls.itens)
    ensures confirmado ==> ls.GetItem("token") == None && forall pathname: string :: !DeveRedirecionar(ls.GetItem("token"), pathname)
  {
    if confirmado {
      ls.RemoveItem("token");
      ls.RemoveItem("userEmail");
      assert ls.itens == old(ls.itens) - {"token", "userEmail"};
    }
  }

  /** The page-load test: a truthy token while on the login or the
      registration page sends the user away. */
  predicate DeveRedirecionar(token: Option<string>, pathname: string) {
    Verdadeiro(token) && (Contains(pathname, "login.html") || Contains(pathname, "cadastro.html"))
  }

  lemma TokenRedirecionaNoLogin(token: string)
    requires token != ""
    ensures forall pathname: string :: Contains(pathname, "login.html") ==> DeveRedirecionar(Some(token), pathname)
  {
  }

  // ---------------------------------------------------------------------
  // Draft registration fields

  /** `'cad' + id.charAt(0).toUpperCase() + id.slice(1)`. */
  function ChaveRascunho(id: string): (k: string)
    ensures |k| == 3 + |id| && k[..3] == "cad"
    ensures id != [] ==> k[3] == JsUpperChar(id[0]) && k[4..] == id[1..]
  {
    "cad" + (if id == [] then [] else [JsUpperChar(id[0])] + id[1..])
  }

  /** The keys written for the two saved inputs are the ones read back. */
  lemma ChavesDosCampos()
    ensures ChaveRascunho("nome") == "cadNome"
    ensures ChaveRascunho("email") == "cadEmail"
  {
  }

  /** The `input` listener: store the field's current value under its key. */
  method SalvarRascunho(ls: LocalStorage, id: string, valor: string)
    modifies ls
    ensures ls.itens == old(ls.itens)[ChaveRascunho(id) := valor]
  {
    ls.SetItem(ChaveRascunho(id), valor);
  }

  /** Page load: each saved draft that is truthy replaces the field's value. */
  function CarregarRascunhos(itens: map<string, string>, nome: string, email: string): (r: (string, string))
    ensures r.0 == (if "cadNome" in itens && itens["cadNome"] != "" then itens["cadNome"] else nome)
    ensures r.1 == (if "cadEmail" in itens && itens["cadEmail"] != "" then itens["cadEmail"] else email)
  {
    var salvoNome := if "cadNome" in itens then Some(itens["cadNome"]) else None;
    var salvoEmail := if "cadEmail" in itens then Some(itens["cadEmail"]) else None;
    (if Verdadeiro(salvoNome) then salvoNome.value else nome,
     if Verdadeiro(salvoEmail) then salvoEmail.value else email)
  }

  /** Typing a name and an e-mail and reloading the page restores both
      (an empty draft leaves the field as the page had it). */
  lemma RascunhoIdaEVolta(itens: map<string, string>, nome: string, email: string, nome0: string, email0: string)
    ensures var depois := itens[ChaveRascunho("nome") := nome][ChaveRascunho("email") := email];
            CarregarRascunhos(depois, nome0, email0)
            == (if nome != "" then nome else nome0, if email != "" then email else email0)
  {
    ChavesDosCampos();
  }
}
