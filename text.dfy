/** Character classes and string operations that the Python routers and the
    JavaScript front end rely on, written out over `seq<char>`. */
module Text {
  import opened Common

  /** An ASCII decimal digit, the class JavaScript's `\d` matches. */
  predicate IsDigit(c: char) { '0' <= c <= '9' }

  predicate AllDigits(s: string) { forall i | 0 <= i < |s| :: IsDigit(s[i]) }

  /** Whitespace as Python's `str.isspace()` sees it; `str.strip()` removes these. */
  predicate IsPySpace(c: char) {
    c == ' ' || ('\t' <= c <= '\r') || ('\U{1C}' <= c <= '\U{1F}') || c == '\U{85}' || c == '\U{A0}'
    || c == '\U{1680}' || ('\U{2000}' <= c <= '\U{200A}') || c == '\U{2028}' || c == '\U{2029}'
    || c == '\U{202F}' || c == '\U{205F}' || c == '\U{3000}'
  }

  /** Whitespace as JavaScript's `\s` and `String.prototype.trim` see it. */
  predicate IsJsSpace(c: char) {
    c == ' ' || ('\t' <= c <= '\r') || c == '\U{A0}' || c == '\U{1680}' || ('\U{2000}' <= c <= '\U{200A}')
    || c == '\U{2028}' || c == '\U{2029}' || c == '\U{202F}' || c == '\U{205F}' || c == '\U{3000}'
    || c == '\U{FEFF}'
  }

  /** Drops the leading characters that `isSpace` accepts. */
  function TrimLeft(s: string, isSpace: char -> bool): (r: string)
    ensures |r| <= |s| && r == s[|s| - |r|..]
    ensures r != [] ==> !isSpace(r[0])
    ensures (forall i | 0 <= i < |s| - |r| :: isSpace(s[i]))
  {
    if s != [] && isSpace(s[0]) then TrimLeft(s[1..], isSpace) else s
  }

  /** Drops the trailing characters that `isSpace` accepts. */
  function TrimRight(s: string, isSpace: char -> bool): (r: string)
    ensures |r| <= |s| && r == s[..|r|]
    ensures r != [] ==> !isSpace(r[|r| - 1])
  {
    if s != [] && isSpace(s[|s| - 1]) then TrimRight(s[..|s| - 1], isSpace) else s
  }

  /** Python's `str.strip()` with no argument. */
  function PyStrip(s: string): string { TrimRight(TrimLeft(s, IsPySpace), IsPySpace) }

  lemma PyStripKeeps(s: string)
    requires s != [] ==> !IsPySpace(s[0]) && !IsPySpace(s[|s| - 1])
    ensures PyStrip(s) == s
  {
  }

  /** JavaScript's `String.prototype.trim()`. */
  function JsTrim(s: string): string { TrimRight(TrimLeft(s, IsJsSpace), IsJsSpace) }

  /** Python's `str.lower()` on one character, for ASCII and the Latin-1 letters
      (which covers the accented spellings the routers accept). */
  function PyLowerChar(c: char): char {
    if 'A' <= c <= 'Z' || ('\U{C0}' <= c <= '\U{DE}' && c != '\U{D7}') then (c as int + 32) as char else c
  }

  function PyLower(s: string): (r: string)
    ensures |r| == |s| && forall i | 0 <= i < |s| :: r[i] == PyLowerChar(s[i])
  {
    seq(|s|, i requires 0 <= i < |s| => PyLowerChar(s[i]))
  }

  /** JavaScript's `toUpperCase()` on one character, for ASCII and the Latin-1
      letters whose upper case is a single Latin-1 letter. */
  function JsUpperChar(c: char): char {
    if 'a' <= c <= 'z' || ('\U{E0}' <= c <= '\U{FE}' && c != '\U{F7}') then (c as int - 32) as char else c
  }

  /** `s.replace(/\D/g, '')`: the digits of `s`, in order. */
  function Digits(s: string): (r: string)
    ensures |r| <= |s| && AllDigits(r)
  {
    if s == [] then [] else (if IsDigit(s[0]) then [s[0]] else []) + Digits(s[1..])
  }

  lemma {:induction false} DigitsConcat(a: string, b: string)
    ensures Digits(a + b) == Digits(a) + Digits(b)
  {
    if a == [] {
      assert a + b == b;
    } else {
      assert (a + b)[0] == a[0];
      assert (a + b)[1..] == a[1..] + b;
      DigitsConcat(a[1..], b);
    }
  }

  lemma {:induction false} DigitsOfDigits(s: string)
    requires AllDigits(s)
    ensures Digits(s) == s
  {
    if s != [] { DigitsOfDigits(s[1..]); }
  }

  /** `haystack.includes(needle)` / Python's `needle in haystack`. */
  predicate Contains(haystack: string, needle: string) {
    exists i | 0 <= i <= |haystack| - |needle| :: OccursAt(haystack, needle, i)
  }

  predicate OccursAt(haystack: string, needle: string, i: int)
    requires 0 <= i <= |haystack| - |needle|
  {
    haystack[i..i + |needle|] == needle
  }

  function DigitChar(d: int): (c: char)
    requires 0 <= d < 10
    ensures IsDigit(c)
  {
    ('0' as int + d) as char
  }

  function DigitValue(c: char): (d: int)
    requires IsDigit(c)
    ensures 0 <= d < 10 && DigitChar(d) == c
  {
    c as int - '0' as int
  }

  /** Decimal text of a natural number, as a template literal prints it. */
  function NatToString(n: nat): (r: string)
    ensures r != [] && AllDigits(r)
    decreases n
  {
    if n < 10 then [DigitChar(n)] else NatToString(n / 10) + [DigitChar(n % 10)]
  }

  /** Decimal text of an integer, as `${n}` prints it. */
  function IntToString(n: int): (r: string)
    ensures r != []
  {
    if n < 0 then "-" + NatToString(-n) else NatToString(n)
  }

  /** The number a run of decimal digits denotes. */
  function DigitsValue(s: string): nat
    requires AllDigits(s)
  {
    if s == [] then 0 else DigitsValue(s[..|s| - 1]) * 10 + DigitValue(s[|s| - 1])
  }

  lemma {:induction false} DigitsValueOfNatToString(n: nat)
    ensures DigitsValue(NatToString(n)) == n
    decreases n
  {
    var s := NatToString(n);
    if n >= 10 {
      assert s[..|s| - 1] == NatToString(n / 10);
      DigitsValueOfNatToString(n / 10);
    }
  }

  /** The longest prefix of `s` made of digits. */
  function LeadingDigits(s: string): (r: string)
    ensures |r| <= |s| && r == s[..|r|] && AllDigits(r)
    ensures |r| < |s| ==> !IsDigit(s[|r|])
  {
    if s != [] && IsDigit(s[0]) then [s[0]] + LeadingDigits(s[1..]) else []
  }

  lemma {:induction false} LeadingDigitsOfDigits(s: string)
    requires AllDigits(s)
    ensures LeadingDigits(s) == s
  {
    if s != [] { LeadingDigitsOfDigits(s[1..]); }
  }

  /** Text with an optional leading sign split off: whether it was '-', and the rest. */
  function SplitSign(t: string): (bool, string) {
    if t != [] && (t[0] == '-' || t[0] == '+') then (t[0] == '-', t[1..]) else (false, t)
  }

  /** JavaScript's `parseInt(s)` on decimal text: leading whitespace is skipped,
      an optional sign is read, then the longest run of digits; no digits at all
      gives `NaN`, here `None`. */
  function ParseInt(s: string): Option<int> {
    var (neg, u) := SplitSign(TrimLeft(s, IsJsSpace));
    var d := LeadingDigits(u);
    if d == [] then None else Some(if neg then -(DigitsValue(d) as int) else DigitsValue(d))
  }

  /** JavaScript's conversion of a string to a number (`ToNumber`), as the loose
      comparison `number == string` applies it, for decimal integer text: the
      string is trimmed, the empty string is 0, an optionally signed run of
      digits is its value, and anything else is `None` (`NaN`). */
  function ToNumber(s: string): Option<int> {
    var t := JsTrim(s);
    if t == [] then Some(0)
    else
      var (neg, u) := SplitSign(t);
      if u != [] && AllDigits(u) then Some(if neg then -(DigitsValue(u) as int) else DigitsValue(u)) else None
  }

  /** Text that neither starts nor ends with whitespace survives both trims. */
  lemma TrimKeeps(s: string, isSpace: char -> bool)
    requires s != [] ==> !isSpace(s[0]) && !isSpace(s[|s| - 1])
    ensures TrimLeft(s, isSpace) == s && TrimRight(s, isSpace) == s
  {
  }

  lemma DigitTextIsTrimmed(t: string)
    requires t != [] && AllDigits(t)
    ensures TrimLeft(t, IsJsSpace) == t && TrimRight(t, IsJsSpace) == t
    ensures TrimLeft("-" + t, IsJsSpace) == "-" + t && TrimRight("-" + t, IsJsSpace) == "-" + t
  {
    assert IsDigit(t[0]) && IsDigit(t[|t| - 1]);
    TrimKeeps(t, IsJsSpace);
    var u := "-" + t;
    assert u[0] == '-' && u[|u| - 1] == t[|t| - 1];
    TrimKeeps(u, IsJsSpace);
  }

  lemma {:induction false} SplitSignOfDigitText(t: string)
    requires t != [] && AllDigits(t)
    ensures SplitSign(t) == (false, t) && SplitSign("-" + t) == (true, t)
  {
    assert IsDigit(t[0]);
    assert ("-" + t)[1..] == t;
  }

  /** `parseInt` reads back every integer's decimal text. */
  lemma ParseIntOfIntToString(n: int)
    ensures ParseInt(IntToString(n)) == Some(n)
  {
    var m: nat := if n < 0 then -n else n;
    var t := NatToString(m);
    DigitsValueOfNatToString(m);
    LeadingDigitsOfDigits(t);
    DigitTextIsTrimmed(t);
    SplitSignOfDigitText(t);
  }

  /** Comparing a number with its own decimal text by `==` is true. */
  lemma ToNumberOfIntToString(n: int)
    ensures ToNumber(IntToString(n)) == Some(n)
  {
    var m: nat := if n < 0 then -n else n;
    var t := NatToString(m);
    DigitsValueOfNatToString(m);
    DigitTextIsTrimmed(t);
    SplitSignOfDigitText(t);
  }
}
