/** The JavaScript values a cleaned cell can hold, and cleanValue / parseNumber. */
module Cells {
  import opened Wrappers
  import opened JsText
  import opened JsNumber
  import opened Columns
  import opened Seqs

  /** A property value of a mapped row: absent (undefined), null, a string or a number. */
  datatype JsValue = Undefined | Null | Str(s: string) | Num(x: real)

  /** JavaScript truthiness of these values. */
  predicate Truthy(v: JsValue)
  {
    match v
    case Undefined => false
    case Null => false
    case Str(s) => s != ""
    case Num(x) => x != 0.0
  }

  /** The characters the pattern [,$\s] removes before a number is parsed. */
  predicate IsNumberNoise(c: char)
  {
    c == ',' || c == '$' || IsWhiteSpace(c)
  }

  const NotNumberNoise: char -> bool := c => !IsNumberNoise(c)

  /** str.replace(/[,$\s]/g, ''). */
  function StripNumberNoise(s: string): (r: string)
    ensures forall i :: 0 <= i < |r| ==> !IsNumberNoise(r[i])
  {
    if s == [] then []
    else if IsNumberNoise(s[0]) then StripNumberNoise(s[1..])
    else [s[0]] + StripNumberNoise(s[1..])
  }

  /** Stripping keeps exactly the characters other than commas, dollar signs and white space,
      in their order. */
  lemma {:induction false} StripNumberNoiseIsFilter(s: string)
    ensures StripNumberNoise(s) == Filter(s, NotNumberNoise)
  {
    if s != [] {
      StripNumberNoiseIsFilter(s[1..]);
      assert s == [s[0]] + s[1..];
      FilterCons(s[0], s[1..], NotNumberNoise);
    }
  }

  /** Text with no noise character is left as it is. */
  lemma {:induction false} StripNumberNoiseClean(s: string)
    requires forall i :: 0 <= i < |s| ==> !IsNumberNoise(s[i])
    ensures StripNumberNoise(s) == s
  {
    if s != [] {
      StripNumberNoiseClean(s[1..]);
    }
  }

  /** parseNumber on text: drop the noise characters, then parseFloat; NaN becomes null.
      Its `typeof value === 'number'` branch is never taken, since cleanValue passes text. */
  function ParseNumber(s: string): (r: JsValue)
    ensures r == Null || r.Num?
    ensures r == Null <==> ParseFloat(StripNumberNoise(s)).None?
    ensures r.Num? ==> ParseFloat(StripNumberNoise(s)) == Some(r.x)
  {
    match ParseFloat(StripNumberNoise(s))
    case None => Null
    case Some(x) => Num(x)
  }

  predicate IsNumericField(f: Field)
  {
    f == Area || f == Price || f == Balcony
  }

  /** cleanValue: the empty cell is null; otherwise the trimmed text is parsed as a number for
      area, price and balcony, as an integer for floor (where 0 and NaN both give null), and
      kept as text for every other field. */
  function CleanValue(value: string, f: Field): (r: JsValue)
    ensures value == "" ==> r == Null
    ensures value != "" && IsNumericField(f) ==> r == ParseNumber(Trim(value))
    ensures value != "" && f == Floor ==>
      (r.Num? <==> ParseInt(Trim(value)).Some? && ParseInt(Trim(value)).value != 0)
      && (r.Num? ==> r.x == ParseInt(Trim(value)).value as real)
    ensures value != "" && !IsNumericField(f) && f != Floor ==> r == Str(Trim(value))
  {
    if value == "" then Null
    else
      var str := Trim(value);
      if IsNumericField(f) then ParseNumber(str)
      else if f == Floor then
        match ParseInt(str)
        case None => Null
        case Some(n) => if n != 0 then Num(n as real) else Null
      else Str(str)
  }

  /** What cleanValue can yield for each kind of field. */
  lemma CleanValueKinds(value: string, f: Field)
    ensures CleanValue(value, f) != Undefined
    ensures value == "" ==> CleanValue(value, f) == Null
    ensures IsNumericField(f) ==> CleanValue(value, f).Null? || CleanValue(value, f).Num?
    ensures f == Floor ==>
      || CleanValue(value, f).Null?
      || (CleanValue(value, f).Num? && CleanValue(value, f).x != 0.0 && CleanValue(value, f).x == CleanValue(value, f).x.Floor as real)
    ensures !IsNumericField(f) && f != Floor && value != "" ==> CleanValue(value, f) == Str(Trim(value))
  {
  }

  /** A numeric cell whose text, once trimmed and stripped of commas, dollar signs and white
      space, is the decimal text of n (such as "$ 1,250,000") is cleaned to the number n. */
  lemma {:induction false} CleanNumericDecimal(value: string, f: Field, n: nat)
    requires IsNumericField(f)
    requires value != "" && StripNumberNoise(Trim(value)) == NatToString(n)
    ensures CleanValue(value, f) == Num(n as real)
  {
    ParseFloatOfNatToString(n);
  }

  /** A floor cell holding the decimal text of n is cleaned to n, except that floor 0 is null. */
  lemma {:induction false} CleanFloorDecimal(n: nat)
    ensures CleanValue(NatToString(n), Floor) == if n == 0 then Null else Num(n as real)
  {
    var s := NatToString(n);
    assert IsDigit(s[0]) && IsDigit(s[|s| - 1]);
    TrimUntouched(s);
    ParseIntOfNatToString(n);
  }

  lemma StripExampleTail()
    ensures StripNumberNoise("$1,250,000"[5..]) == "0000"
  {
    var v := "$1,250,000";
    assert StripNumberNoise(v[10..]) == "";
    assert StripNumberNoise(v[9..]) == "0";
    assert StripNumberNoise(v[8..]) == "00";
    assert StripNumberNoise(v[7..]) == "000";
    assert StripNumberNoise(v[6..]) == "000";
  }

  lemma StripExampleMiddle()
    ensures StripNumberNoise("$1,250,000"[2..]) == "250000"
  {
    var v := "$1,250,000";
    StripExampleTail();
    assert StripNumberNoise(v[4..]) == "50000";
    assert StripNumberNoise(v[3..]) == "250000";
  }

  lemma StripExample()
    ensures StripNumberNoise("$1,250,000") == "1250000"
  {
    var v := "$1,250,000";
    StripExampleMiddle();
    assert StripNumberNoise(v[1..]) == "1250000";
  }

  lemma NatToStringExample()
    ensures NatToString(1250000) == "1250000"
  {
    assert NatToString(1) == "1";
    assert NatToString(12) == "12";
    assert NatToString(125) == "125";
    assert NatToString(1250) == "1250";
    assert NatToString(12500) == "12500";
    assert NatToString(125000) == "125000";
  }

  /** Cleaning "$1,250,000" as a price gives 1250000. */
  lemma CleanPriceExample()
    ensures CleanValue("$1,250,000", Price) == Num(1250000.0)
  {
    var v := "$1,250,000";
    TrimUntouched(v);
    StripExample();
    NatToStringExample();
    CleanNumericDecimal(v, Price, 1250000);
  }

  /** A price without any digit cannot be parsed and is cleaned to null. */
  lemma CleanPriceUnparseable()
    ensures CleanValue("TBA", Price) == Null
  {
    var v := "TBA";
    TrimUntouched(v);
    StripNumberNoiseClean(v);
    ParseFloatNaN(v);
  }
}
