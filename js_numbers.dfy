/**
 * Number <-> text conversions used by the screens: `parseInt`, `parseFloat` and the
 * decimal rendering of an integer (`String(n)` for an integer `n`).
 */
module JsNumbers {
  import opened Wrappers
  import JsText

  predicate IsDigit(c: char) { '0' <= c <= '9' }

  function DigitValue(c: char): (d: nat)
    requires IsDigit(c)
    ensures d < 10
  {
    (c as int) - ('0' as int)
  }

  function DigitChar(d: nat): (c: char)
    requires d < 10
    ensures IsDigit(c) && DigitValue(c) == d
  {
    ('0' as int + d) as char
  }

  predicate AllDigits(s: string) {
    forall k :: 0 <= k < |s| ==> IsDigit(s[k])
  }

  /** The value of a run of decimal digits (most significant first). */
  function DecValue(s: string): nat
    requires AllDigits(s)
  {
    if s == [] then 0 else DecValue(s[..|s| - 1]) * 10 + DigitValue(s[|s| - 1])
  }

  /** The longest prefix of `s` made of decimal digits. */
  function LeadingDigits(s: string): (r: string)
    ensures AllDigits(r) && |r| <= |s| && r == s[..|r|]
    ensures |r| < |s| ==> !IsDigit(s[|r|])
  {
    if s != [] && IsDigit(s[0]) then [s[0]] + LeadingDigits(s[1..]) else []
  }

  // ---------------------------------------------------------------- integer to text

  /** The decimal digits of a natural number, without leading zeros. */
  function NatToString(n: nat): (s: string)
    ensures |s| >= 1 && AllDigits(s)
    ensures |s| > 1 ==> s[0] != '0'
  {
    if n < 10 then [DigitChar(n)] else NatToString(n / 10) + [DigitChar(n % 10)]
  }

  /** `String(n)` for an integer `n`. */
  function IntToString(n: int): (s: string)
    ensures |s| >= 1
  {
    if n < 0 then "-" + NatToString(-n) else NatToString(n)
  }

  lemma {:induction false} DecValueOfNatToString(n: nat)
    ensures DecValue(NatToString(n)) == n
  {
    if n >= 10 {
      var s := NatToString(n);
      DecValueOfNatToString(n / 10);
      assert s[..|s| - 1] == NatToString(n / 10);
    }
  }

  // ---------------------------------------------------------------- parseInt

  /** Splits off an optional leading `+` or `-`. */
  function SplitSign(s: string): (bool, string) {
    if |s| > 0 && (s[0] == '-' || s[0] == '+') then (s[0] == '-', s[1..]) else (false, s)
  }

  predicate IsHexDigit(c: char) {
    IsDigit(c) || 'a' <= c <= 'f' || 'A' <= c <= 'F'
  }

  function HexDigitValue(c: char): nat
    requires IsHexDigit(c)
  {
    if IsDigit(c) then DigitValue(c)
    else if 'a' <= c <= 'f' then (c as int) - ('a' as int) + 10
    else (c as int) - ('A' as int) + 10
  }

  function LeadingHexDigits(s: string): (r: string)
    ensures |r| <= |s| && forall k :: 0 <= k < |r| ==> IsHexDigit(r[k])
  {
    if s != [] && IsHexDigit(s[0]) then [s[0]] + LeadingHexDigits(s[1..]) else []
  }

  function HexValue(s: string): nat
    requires forall k :: 0 <= k < |s| ==> IsHexDigit(s[k])
  {
    if s == [] then 0 else HexValue(s[..|s| - 1]) * 16 + HexDigitValue(s[|s| - 1])
  }

  /**
   * `parseInt(s)` without a radix: leading white space is skipped, a sign is accepted, a
   * `0x`/`0X` prefix selects base 16, and the longest run of digits is read. `None` stands
   * for `NaN` (no digit at all).
   */
  function ParseInt(s: string): (r: Option<int>)
    ensures JsText.TrimStart(s) == [] ==> r == None
    ensures var u := SplitSign(JsText.TrimStart(s)).1; u != [] && !IsDigit(u[0]) ==> r == None
    ensures r.Some? && r.value < 0 ==> SplitSign(JsText.TrimStart(s)).0
  {
    var (negative, u) := SplitSign(JsText.TrimStart(s));
    var magnitude: Option<nat> :=
      if |u| >= 2 && u[0] == '0' && (u[1] == 'x' || u[1] == 'X') then
        var h := LeadingHexDigits(u[2..]);
        if h == [] then None else Some(HexValue(h))
      else
        var d := LeadingDigits(u);
        if d == [] then None else Some(DecValue(d));
    match magnitude
    case None => None
    case Some(m) => var v: int := m; Some(if negative then -v else v)
  }

  /** `parseInt(String(n)) == n`: the integer rendering reads back unchanged. */
  lemma ParseIntOfIntToString(n: int)
    ensures ParseInt(IntToString(n)) == Some(n)
  {
    var m: nat := if n < 0 then -n else n;
    var digits := NatToString(m);
    var s := IntToString(n);
    assert JsText.TrimStart(s) == s by {
      assert !JsText.IsJsSpace(s[0]);
    }
    assert SplitSign(s).1 == digits;
    LeadingDigitsOfDigits(digits);
    DecValueOfNatToString(m);
  }

  lemma {:induction false} LeadingDigitsOfDigits(s: string)
    requires AllDigits(s)
    ensures LeadingDigits(s) == s
  {
    if s != [] {
      LeadingDigitsOfDigits(s[1..]);
    }
  }

  // ---------------------------------------------------------------- parseFloat

  /** A JavaScript number as `parseFloat` can produce it. */
  datatype JsNumber = NaN | Finite(value: real) | Infinite(negative: bool)

  /** 10 raised to an integer power. */
  function Pow10(e: int): (r: real)
    ensures r > 0.0
    decreases if e < 0 then -e else e
  {
    if e == 0 then 1.0 else if e > 0 then 10.0 * Pow10(e - 1) else Pow10(e + 1) / 10.0
  }

  /** An exponent part `e<sign><digits>` at the start of `s`, if there is a complete one. */
  function ExponentPart(s: string): (r: Option<(int, nat)>)
    ensures r.Some? ==> 2 <= r.value.1 <= |s|
  {
    if |s| >= 1 && (s[0] == 'e' || s[0] == 'E') then
      var (negative, u) := SplitSign(s[1..]);
      var d := LeadingDigits(u);
      if d == [] then None
      else
        var e: int := DecValue(d);
        Some((if negative then -e else e, |s| - |u| + |d|))
    else None
  }

  /**
   * The magnitude of the longest prefix of `u` that reads as an unsigned decimal literal
   * (digits, an optional fraction, an optional exponent), or `None` if `u` has none.
   */
  function DecimalPrefix(u: string): Option<real> {
    var intPart := LeadingDigits(u);
    var rest := u[|intPart|..];
    var hasDot := |rest| >= 1 && rest[0] == '.';
    var fracPart := if hasDot then LeadingDigits(rest[1..]) else [];
    if intPart == [] && fracPart == [] then
      None
    else
      var afterMantissa := if hasDot then rest[1 + |fracPart|..] else rest;
      var exponent := match ExponentPart(afterMantissa)
        case Some((e, _)) => e
        case None => 0;
      Some((DecValue(intPart + fracPart) as real) * Pow10(exponent - |fracPart|))
  }

  /**
   * `parseFloat(s)`: leading white space is skipped and the longest prefix that reads as a
   * signed decimal literal or as `Infinity` is converted; with no such prefix the result
   * is `NaN`.
   */
  function ParseFloat(s: string): (r: JsNumber)
    ensures JsText.TrimStart(s) == [] ==> r == NaN
    ensures var (negative, u) := SplitSign(JsText.TrimStart(s));
      r.Infinite? <==> |u| >= 8 && u[..8] == "Infinity"
  {
    var (negative, u) := SplitSign(JsText.TrimStart(s));
    if |u| >= 8 && u[..8] == "Infinity" then
      Infinite(negative)
    else
      match DecimalPrefix(u)
      case None => NaN
      case Some(m) => Finite(if negative then -m else m)
  }

  /** A plain run of digits reads as its decimal value. */
  lemma DecimalPrefixOfDigits(u: string)
    requires u != [] && AllDigits(u)
    ensures DecimalPrefix(u) == Some(DecValue(u) as real)
  {
    LeadingDigitsOfDigits(u);
    assert u[|u|..] == [];
    assert u + [] == u;
  }

  /** A sign (or none) followed by plain digits reads as that signed value. */
  lemma ParseFloatOfSignedDigits(s: string, negative: bool, digits: string)
    requires JsText.TrimStart(s) == s && SplitSign(s) == (negative, digits)
    requires digits != [] && AllDigits(digits)
    ensures ParseFloat(s) == Finite(if negative then -(DecValue(digits) as real) else DecValue(digits) as real)
  {
    assert |digits| >= 8 ==> digits[..8][0] == digits[0];
    DecimalPrefixOfDigits(digits);
  }

  /** The decimal rendering of an integer reads back through `parseFloat` as that integer. */
  lemma ParseFloatOfIntToString(n: int)
    ensures ParseFloat(IntToString(n)) == Finite(n as real)
  {
    var m: nat := if n < 0 then -n else n;
    var digits := NatToString(m);
    var s := IntToString(n);
    assert !JsText.IsJsSpace(s[0]);
    assert JsText.TrimStart(s) == s;
    assert SplitSign(s) == (n < 0, digits);
    DecValueOfNatToString(m);
    ParseFloatOfSignedDigits(s, n < 0, digits);
  }

  /** A value with no digit before any other character reads as `NaN`. */
  lemma ParseFloatOfNonNumeric(s: string)
    requires s != [] && !IsDigit(s[0]) && s[0] != '.' && s[0] != '+' && s[0] != '-'
    requires s[0] != 'I' && !JsText.IsJsSpace(s[0])
    ensures ParseFloat(s) == NaN
  {
    assert JsText.TrimStart(s) == s;
  }

  // ---------------------------------------------------------------- arithmetic

  /** `a + b` on doubles: `NaN` absorbs, opposite infinities give `NaN`. */
  function Add(a: JsNumber, b: JsNumber): (r: JsNumber)
    ensures a.Finite? && b.Finite? ==> r == Finite(a.value + b.value)
    ensures a == NaN || b == NaN ==> r == NaN
  {
    match (a, b)
    case (Finite(x), Finite(y)) => Finite(x + y)
    case (NaN, _) => NaN
    case (_, NaN) => NaN
    case (Infinite(n), Infinite(m)) => if n == m then a else NaN
    case (Infinite(_), Finite(_)) => a
    case (Finite(_), Infinite(_)) => b
  }

  /** `-a`. */
  function Negate(a: JsNumber): (r: JsNumber)
    ensures a.Finite? ==> r == Finite(-a.value)
    ensures r == NaN <==> a == NaN
  {
    match a
    case Finite(x) => Finite(-x)
    case NaN => NaN
    case Infinite(n) => Infinite(!n)
  }

  /** `a - b`. */
  function Subtract(a: JsNumber, b: JsNumber): (r: JsNumber)
    ensures a.Finite? && b.Finite? ==> r == Finite(a.value - b.value)
    ensures a == NaN || b == NaN ==> r == NaN
  {
    Add(a, Negate(b))
  }
}
