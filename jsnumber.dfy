/** parseFloat and parseInt as the core calls them, on exact numbers (no floating-point rounding). */
module JsNumber {
  import opened Wrappers
  import opened JsText

  /** A digit of the given radix (10, or 16 after a `0x` prefix). */
  predicate IsRadixDigit(c: char, radix: nat)
  {
    IsDigit(c) || (radix == 16 && ('a' <= c <= 'f' || 'A' <= c <= 'F'))
  }

  function RadixDigitValue(c: char, radix: nat): (v: nat)
    requires IsRadixDigit(c, radix)
    ensures v < (if radix == 16 then 16 else 10)
  {
    if IsDigit(c) then c as int - '0' as int
    else if 'a' <= c <= 'f' then c as int - 'a' as int + 10
    else c as int - 'A' as int + 10
  }

  predicate AllRadixDigits(ds: string, radix: nat)
  {
    forall k :: 0 <= k < |ds| ==> IsRadixDigit(ds[k], radix)
  }

  /** The end of the longest run of radix digits of s that starts at position i. */
  function DigitRunEnd(s: string, i: nat, radix: nat): (e: nat)
    requires i <= |s|
    ensures i <= e <= |s|
    ensures AllRadixDigits(s[i..e], radix)
    ensures e == |s| || !IsRadixDigit(s[e], radix)
    decreases |s| - i
  {
    if i < |s| && IsRadixDigit(s[i], radix) then
      var e := DigitRunEnd(s, i + 1, radix);
      assert s[i..e] == [s[i]] + s[i + 1..e];
      e
    else i
  }

  /** The value of a string of radix digits, most significant first. */
  function DigitsValue(ds: string, radix: nat): nat
    requires AllRadixDigits(ds, radix)
  {
    if ds == [] then 0
    else DigitsValue(ds[..|ds| - 1], radix) * radix + RadixDigitValue(ds[|ds| - 1], radix)
  }

  function Pow10(n: nat): (r: nat)
    ensures r >= 1
  {
    if n == 0 then 1 else 10 * Pow10(n - 1)
  }

  /** Length of an optional leading sign. */
  function SignLength(t: string): nat
  {
    if |t| > 0 && (t[0] == '-' || t[0] == '+') then 1 else 0
  }

  /** The exponent part `e`/`E`, optional sign, decimal digits, starting at position i; 0 when
      there is none (parseFloat then stops before the `e`). */
  function ExponentAt(t: string, i: nat): int
    requires i <= |t|
  {
    if i < |t| && (t[i] == 'e' || t[i] == 'E') then
      var q := if i + 1 < |t| && (t[i + 1] == '+' || t[i + 1] == '-') then i + 2 else i + 1;
      var e := DigitRunEnd(t, q, 10);
      if e == q then 0
      else if t[i + 1] == '-' then -(DigitsValue(t[q..e], 10) as int)
      else DigitsValue(t[q..e], 10)
    else 0
  }

  /** The value of fraction digits d1 d2 ... dk, that is 0.d1d2...dk. */
  function FractionValue(ds: string): real
    requires AllRadixDigits(ds, 10)
  {
    DigitsValue(ds, 10) as real / Pow10(|ds|) as real
  }

  /** m times ten to the power exp. */
  function Scale(m: real, exp: int): real
  {
    if exp >= 0 then m * Pow10(exp) as real else m / Pow10(-exp) as real
  }

  /** The unsigned decimal literal at position p of t: integer digits, an optional point with
      fraction digits, an optional exponent. None when neither digit run has a digit. */
  function UnsignedDecimalAt(t: string, p: nat): Option<real>
    requires p <= |t|
  {
    var e1 := DigitRunEnd(t, p, 10);
    var hasDot := e1 < |t| && t[e1] == '.';
    var e2 := if hasDot then DigitRunEnd(t, e1 + 1, 10) else e1;
    var fracDigits := if hasDot then t[e1 + 1..e2] else [];
    if e1 == p && fracDigits == [] then None
    else Some(Scale(DigitsValue(t[p..e1], 10) as real + FractionValue(fracDigits), ExponentAt(t, e2)))
  }

  /** parseFloat: skip leading white space, then read the longest prefix that is a decimal
      literal (sign, digits, fraction, exponent); None stands for NaN, when there is no
      such prefix. */
  function ParseFloat(s: string): Option<real>
  {
    var t := TrimStart(s);
    var p := SignLength(t);
    match UnsignedDecimalAt(t, p)
    case None => None
    case Some(magnitude) => Some(if p == 1 && t[0] == '-' then -magnitude else magnitude)
  }

  /** A `0x` or `0X` prefix at position p. */
  predicate HasHexPrefix(t: string, p: nat)
  {
    p + 2 <= |t| && t[p] == '0' && (t[p + 1] == 'x' || t[p + 1] == 'X')
  }

  /** The value of the longest run of radix digits at position start; None when it is empty. */
  function DigitsAt(t: string, start: nat, radix: nat): Option<nat>
    requires start <= |t|
  {
    var e := DigitRunEnd(t, start, radix);
    if e == start then None else Some(DigitsValue(t[start..e], radix))
  }

  /** parseInt with no radix: skip leading white space, an optional sign, then a `0x`/`0X`
      prefix selects radix 16; read the longest run of digits of the radix. None stands for
      NaN, when that run is empty. */
  function ParseInt(s: string): Option<int>
  {
    var t := TrimStart(s);
    var p := SignLength(t);
    var hex := HasHexPrefix(t, p);
    match DigitsAt(t, if hex then p + 2 else p, if hex then 16 else 10)
    case None => None
    case Some(magnitude) =>
      var m: int := magnitude;
      Some(if p == 1 && t[0] == '-' then -m else m)
  }

  /** The digits of NatToString(n) read back as n. */
  lemma {:induction false} DigitsValueOfNatToString(n: nat)
    ensures AllRadixDigits(NatToString(n), 10)
    ensures DigitsValue(NatToString(n), 10) == n
  {
    var r := NatToString(n);
    if n >= 10 {
      DigitsValueOfNatToString(n / 10);
      assert r[..|r| - 1] == NatToString(n / 10);
    }
  }

  /** A string made only of decimal digits is one whole run. */
  lemma {:induction false} DigitRunOfDigits(s: string, i: nat)
    requires i <= |s| && AllRadixDigits(s, 10)
    ensures DigitRunEnd(s, i, 10) == |s|
    decreases |s| - i
  {
    if i < |s| {
      DigitRunOfDigits(s, i + 1);
    }
  }

  /** Text that starts with a digit has no leading white space and no sign. */
  lemma DigitStart(s: string)
    requires |s| >= 1 && IsDigit(s[0])
    ensures TrimStart(s) == s && SignLength(s) == 0
  {
    assert !IsWhiteSpace(s[0]);
  }

  /** A non-empty string of decimal digits with no leading zero is read by parseInt as its value. */
  lemma ParseIntOfDigits(s: string)
    requires |s| >= 1 && AllRadixDigits(s, 10) && (|s| > 1 ==> s[0] != '0')
    ensures ParseInt(s) == Some(DigitsValue(s, 10) as int)
  {
    DigitStart(s);
    assert !HasHexPrefix(s, 0);
    DigitRunOfDigits(s, 0);
    assert s[0..|s|] == s;
    assert DigitsAt(s, 0, 10) == Some(DigitsValue(s, 10));
  }

  lemma ScaleByOne(m: real)
    ensures Scale(m, 0) == m
  {
    assert Pow10(0) == 1;
  }

  lemma NoFraction()
    ensures FractionValue([]) == 0.0
  {
    assert DigitsValue([], 10) == 0 && Pow10(0) == 1;
  }

  /** A whole string of decimal digits is an unsigned decimal literal with no fraction and no
      exponent. */
  lemma UnsignedDecimalOfDigits(s: string)
    requires |s| >= 1 && AllRadixDigits(s, 10)
    ensures UnsignedDecimalAt(s, 0) == Some(DigitsValue(s, 10) as real)
  {
    DigitRunOfDigits(s, 0);
    assert s[0..|s|] == s;
    assert ExponentAt(s, |s|) == 0;
    NoFraction();
    ScaleByOne(DigitsValue(s, 10) as real + 0.0);
  }

  /** A non-empty string of decimal digits is read by parseFloat as its value. */
  lemma ParseFloatOfDigits(s: string)
    requires |s| >= 1 && AllRadixDigits(s, 10)
    ensures ParseFloat(s) == Some(DigitsValue(s, 10) as real)
  {
    DigitStart(s);
    UnsignedDecimalOfDigits(s);
  }

  /** parseInt(String(n)) == n. */
  lemma ParseIntOfNatToString(n: nat)
    ensures ParseInt(NatToString(n)) == Some(n)
  {
    DigitsValueOfNatToString(n);
    ParseIntOfDigits(NatToString(n));
  }

  /** parseFloat(String(n)) == n. */
  lemma ParseFloatOfNatToString(n: nat)
    ensures ParseFloat(NatToString(n)) == Some(n as real)
  {
    DigitsValueOfNatToString(n);
    ParseFloatOfDigits(NatToString(n));
  }

  /** Text that does not start (after white space) with a digit, a sign or a point parses to NaN. */
  lemma ParseFloatNaN(s: string)
    requires var t := TrimStart(s); t == [] || !(IsDigit(t[0]) || t[0] == '-' || t[0] == '+' || t[0] == '.')
    ensures ParseFloat(s).None?
  {
  }
}
