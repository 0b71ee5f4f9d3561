/**
 * JavaScript numbers as far as the application compares them, and
 * `parseFloat`, which turns the longest decimal prefix of a string into a
 * number and gives NaN when there is none.
 */
module JsNumber {
  import opened JsText

  /** A number value; finite values are exact rationals (no binary rounding). */
  datatype Number = Finite(v: real) | PosInf | NegInf | NaN

  /** `x < bound` for a finite bound; every comparison with NaN is false. */
  predicate LessThan(x: Number, bound: real) {
    match x
    case Finite(v) => v < bound
    case NegInf => true
    case PosInf => false
    case NaN => false
  }

  /** `x <= bound` for a finite bound; every comparison with NaN is false. */
  predicate AtMost(x: Number, bound: real) {
    match x
    case Finite(v) => v <= bound
    case NegInf => true
    case PosInf => false
    case NaN => false
  }

  /** `x > bound` for a finite bound; every comparison with NaN is false. */
  predicate GreaterThan(x: Number, bound: real) {
    match x
    case Finite(v) => v > bound
    case NegInf => false
    case PosInf => true
    case NaN => false
  }

  function Pow10(n: nat): (r: real)
    ensures r >= 1.0
  {
    if n == 0 then 1.0 else 10.0 * Pow10(n - 1)
  }

  /** The longest prefix of `s` made of decimal digits. */
  function LeadingDigits(s: string): (r: string)
    ensures AllDigits(r) && |r| <= |s| && r == s[..|r|]
    ensures |r| == |s| || !IsDigit(s[|r|])
  {
    if |s| > 0 && IsDigit(s[0]) then [s[0]] + LeadingDigits(s[1..]) else ""
  }

  lemma {:induction false} LeadingDigitsOfDigits(s: string)
    requires AllDigits(s)
    ensures LeadingDigits(s) == s
  {
    if |s| > 0 {
      LeadingDigitsOfDigits(s[1..]);
    }
  }

  /** The exponent of an exponent part `e5`, `E-3`, `e+2` at the start of `s`;
      0 when there is no complete exponent part (then it is not part of the literal). */
  function ExponentPart(s: string): int {
    if |s| >= 2 && (s[0] == 'e' || s[0] == 'E') then
      var signed := s[1] == '+' || s[1] == '-';
      var digits := LeadingDigits(if signed then s[2..] else s[1..]);
      if |digits| == 0 then 0
      else if s[1] == '-' then 0 - DigitsValue(digits)
      else DigitsValue(digits)
    else 0
  }

  function Scale(m: real, e: int): real {
    if e >= 0 then m * Pow10(e) else m / Pow10(-e)
  }

  function Negate(x: Number): Number {
    match x
    case Finite(v) => Finite(-v)
    case PosInf => NegInf
    case NegInf => PosInf
    case NaN => NaN
  }

  /** An unsigned decimal literal prefix: `Infinity`, or digits with an optional
      fraction (at least one digit in all) and an optional exponent. */
  function ParseUnsigned(s: string): Number {
    if StartsWith(s, "Infinity") then PosInf
    else
      var whole := LeadingDigits(s);
      var rest := s[|whole|..];
      var hasPoint := |rest| > 0 && rest[0] == '.';
      var frac := if hasPoint then LeadingDigits(rest[1..]) else "";
      if |whole| == 0 && |frac| == 0 then NaN
      else
        var after := if hasPoint then rest[1 + |frac|..] else rest;
        var mantissa := DigitsValue(whole) as real + DigitsValue(frac) as real / Pow10(|frac|);
        Finite(Scale(mantissa, ExponentPart(after)))
  }

  /** `parseFloat`: leading whitespace is skipped, an optional sign is read, then the
      longest unsigned decimal literal prefix; NaN when there is none. */
  function ParseFloat(s: string): Number {
    var t := TrimStart(s);
    if |t| > 0 && t[0] == '-' then Negate(ParseUnsigned(t[1..]))
    else if |t| > 0 && t[0] == '+' then ParseUnsigned(t[1..])
    else ParseUnsigned(t)
  }

  /** A rendered natural number parses back to itself. */
  lemma ParseFloatOfNat(n: nat)
    ensures ParseFloat(NatToString(n)) == Finite(n as real)
  {
    var s := NatToString(n);
    assert IsDigit(s[0]);
    assert TrimStart(s) == s;
    assert !StartsWith(s, "Infinity") by { assert s[0] != 'I'; }
    LeadingDigitsOfDigits(s);
    NatToStringRoundTrip(n);
  }

  /** No decimal digit and no `I` (which could start `Infinity`). */
  predicate NoNumeral(s: string) {
    forall i :: 0 <= i < |s| ==> !IsDigit(s[i]) && s[i] != 'I'
  }

  lemma NoNumeralSuffix(s: string, n: nat)
    requires NoNumeral(s) && n <= |s|
    ensures NoNumeral(s[n..])
  {
    forall i | 0 <= i < |s| - n ensures !IsDigit(s[n..][i]) && s[n..][i] != 'I' {
      assert s[n..][i] == s[n + i];
    }
  }

  /** Without a digit or `I` there is no unsigned literal prefix. */
  lemma ParseUnsignedNoDigits(u: string)
    requires NoNumeral(u)
    ensures ParseUnsigned(u) == NaN
  {
    if |u| > 0 {
      assert u[0] != 'I';
      assert !StartsWith(u, "Infinity");
      assert LeadingDigits(u) == "";
      if |u| > 1 {
        assert !IsDigit(u[1]);
      }
    }
  }

  /** Text without any digit is not a number. */
  lemma ParseFloatNoDigits(s: string)
    requires NoNumeral(s)
    ensures ParseFloat(s) == NaN
  {
    var t := TrimStart(s);
    NoNumeralSuffix(s, |s| - |t|);
    if |t| > 0 {
      NoNumeralSuffix(t, 1);
      ParseUnsignedNoDigits(t[1..]);
    }
    ParseUnsignedNoDigits(t);
  }
}
