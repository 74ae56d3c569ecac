/** Helpers shared by the game modules: an optional value (Python's None or a
    missing dictionary key) and the two string conversions the level code
    relies on, str(n) for a natural number and int(s) for a string. */
module Common {

  datatype Option<+T> = None | Some(value: T)

  /** The value if present, else the default (a dictionary's get(key, d)). */
  function GetOr<T>(o: Option<T>, d: T): T {
    if o.Some? then o.value else d
  }

  function Min(a: int, b: int): int {
    if a <= b then a else b
  }

  function Max(a: int, b: int): int {
    if a >= b then a else b
  }

  function Abs(v: int): (r: int)
    ensures r >= 0 && (r == v || r == -v)
  {
    if v < 0 then -v else v
  }

  /** int(v * pct / 100): a percentage of v (a float multiplier given in
      hundredths), truncated toward zero as int() truncates. */
  function ScaledByPct(v: int, pct: int): (r: int)
    ensures pct >= 0 && v >= 0 ==> r >= 0
    ensures pct >= 0 && v <= 0 ==> r <= 0
    ensures Abs(r) * 100 <= Abs(v * pct) < (Abs(r) + 1) * 100
  {
    var p := v * pct;
    if p >= 0 then p / 100 else -((-p) / 100)
  }

  /** The ten decimal digits, in order of value. */
  const DIGITS: string := "0123456789"

  predicate IsDigit(c: char) {
    '0' <= c <= '9'
  }

  function DigitChar(d: nat): (c: char)
    requires d < 10
    ensures IsDigit(c) && c as int - '0' as int == d
  {
    DIGITS[d]
  }

  /** str(n) for a natural number: its shortest decimal representation. */
  function NatToString(n: nat): (s: string)
    ensures |s| > 0 && IsDigit(s[|s| - 1])
    ensures forall i :: 0 <= i < |s| ==> IsDigit(s[i])
    ensures |s| > 1 ==> s[0] != '0'
    decreases n
  {
    if n < 10 then [DigitChar(n)] else NatToString(n / 10) + [DigitChar(n % 10)]
  }

  /** The whitespace that Python's int() skips around a number: the
      characters str.isspace() accepts, ASCII and Unicode alike. */
  predicate IsSpace(c: char) {
    || ('\U{09}' <= c <= '\U{0D}') || ('\U{1C}' <= c <= '\U{20}')
    || c == '\U{85}' || c == '\U{A0}' || c == '\U{1680}'
    || ('\U{2000}' <= c <= '\U{200A}') || c == '\U{2028}' || c == '\U{2029}'
    || c == '\U{202F}' || c == '\U{205F}' || c == '\U{3000}'
  }

  /** s without its leading whitespace. */
  function StripLeft(s: string): (r: string)
    ensures |r| <= |s| && r == s[|s| - |r|..]
    ensures r == [] || !IsSpace(r[0])
  {
    if s != [] && IsSpace(s[0]) then StripLeft(s[1..]) else s
  }

  /** s without its trailing whitespace. */
  function StripRight(s: string): (r: string)
    ensures |r| <= |s| && r == s[..|r|]
    ensures r == [] || !IsSpace(r[|r| - 1])
  {
    if s != [] && IsSpace(s[|s| - 1]) then StripRight(s[..|s| - 1]) else s
  }

  function Strip(s: string): string {
    StripRight(StripLeft(s))
  }

  /** The body of a decimal integer literal as int() accepts it: digits, with
      single underscores allowed between two digits. */
  predicate WellFormedDigits(s: string) {
    && |s| > 0
    && IsDigit(s[0])
    && IsDigit(s[|s| - 1])
    && (forall i :: 0 <= i < |s| ==> IsDigit(s[i]) || s[i] == '_')
    && (forall i :: 0 <= i < |s| - 1 ==> s[i] == '_' ==> s[i + 1] != '_')
  }

  /** The value of a digit string, underscores skipped. */
  function DigitsValue(s: string): nat
    requires forall i :: 0 <= i < |s| ==> IsDigit(s[i]) || s[i] == '_'
  {
    if s == [] then 0
    else if s[|s| - 1] == '_' then DigitsValue(s[..|s| - 1])
    else
      assert IsDigit(s[|s| - 1]);
      DigitsValue(s[..|s| - 1]) * 10 + (s[|s| - 1] as int - '0' as int)
  }

  /** Python's int(s) on a string: None where int() raises ValueError. */
  function ParseInt(s: string): Option<int> {
    ParseTrimmed(Strip(s))
  }

  /** int() on a string already stripped of surrounding whitespace: an
      optional sign, then the digits. */
  function ParseTrimmed(t: string): Option<int> {
    if |t| > 0 && (t[0] == '+' || t[0] == '-') then
      if WellFormedDigits(t[1..]) then
        var n: int := DigitsValue(t[1..]);
        Some(if t[0] == '-' then -n else n)
      else None
    else if WellFormedDigits(t) then Some(DigitsValue(t))
    else None
  }

  /** Reading back what str(n) wrote gives n. */
  lemma {:induction false} DigitsValueOfNatToString(n: nat)
    ensures WellFormedDigits(NatToString(n))
    ensures DigitsValue(NatToString(n)) == n
    decreases n
  {
    var s := NatToString(n);
    if n >= 10 {
      DigitsValueOfNatToString(n / 10);
      assert s[..|s| - 1] == NatToString(n / 10);
    }
  }

  /** A string with no whitespace at either end is its own strip. */
  lemma StripUntrimmed(s: string)
    requires |s| > 0 && !IsSpace(s[0]) && !IsSpace(s[|s| - 1])
    ensures Strip(s) == s
  {
    assert StripLeft(s) == s;
  }

  /** int(str(n)) == n. */
  lemma ParseIntOfNatToString(n: nat)
    ensures ParseInt(NatToString(n)) == Some(n)
  {
    var s := NatToString(n);
    DigitsValueOfNatToString(n);
    StripUntrimmed(s);
  }

  /** A minus sign before well-formed digits negates their value. */
  lemma ParseIntNegatedDigits(s: string)
    requires WellFormedDigits(s)
    ensures ParseInt("-" + s).Some? && ParseInt("-" + s).value + DigitsValue(s) == 0
  {
    var m := "-" + s;
    assert m[0] == '-' && m[1..] == s && m[|m| - 1] == s[|s| - 1];
    StripUntrimmed(m);
  }

  /** int("-" + str(n)) == -n. */
  lemma ParseIntOfNegated(n: nat)
    ensures ParseInt("-" + NatToString(n)).Some? && ParseInt("-" + NatToString(n)).value + n == 0
  {
    DigitsValueOfNatToString(n);
    ParseIntNegatedDigits(NatToString(n));
  }

  /** str is injective on naturals. */
  lemma NatToStringInjective(a: nat, b: nat)
    requires NatToString(a) == NatToString(b)
    ensures a == b
  {
    DigitsValueOfNatToString(a);
    DigitsValueOfNatToString(b);
  }

  /** Names built as a fixed prefix followed by a number differ when the
      numbers do. */
  lemma NumberedNamesDiffer(prefix: string, a: nat, b: nat)
    requires a != b
    ensures prefix + NatToString(a) != prefix + NatToString(b)
  {
    if prefix + NatToString(a) == prefix + NatToString(b) {
      assert (prefix + NatToString(a))[|prefix|..] == NatToString(a);
      assert (prefix + NatToString(b))[|prefix|..] == NatToString(b);
      NatToStringInjective(a, b);
    }
  }
}
