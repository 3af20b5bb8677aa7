/**
 * The number representations the front end relies on: 64-bit integers,
 * doubles kept abstract, decimal digit strings, and the two C/C++ library
 * conversions used on them (std::strtoll in the parser, operator<< on an
 * int64 in the pretty printer).
 */
module Numbers {

  const Int64Min: int := -0x8000_0000_0000_0000
  const Int64Max: int := 0x7FFF_FFFF_FFFF_FFFF

  /** std::int64_t. */
  newtype int64 = x: int | -0x8000_0000_0000_0000 <= x < 0x8000_0000_0000_0000

  /** A double, kept abstract: only the decimal text it was read from is
      known. Conversions to and from binary floating point are not modelled. */
  datatype Float64 = Float64(literal: string)

  predicate IsDigit(c: char) { '0' <= c <= '9' }

  predicate AllDigits(s: string)
  {
    forall i :: 0 <= i < |s| ==> IsDigit(s[i])
  }

  function DigitValue(c: char): (d: nat)
    requires IsDigit(c)
    ensures d < 10
  {
    c as int - '0' as int
  }

  function Digit(d: nat): (c: char)
    requires d < 10
    ensures IsDigit(c) && DigitValue(c) == d
  {
    ('0' as int + d) as char
  }

  /** The value of a string of decimal digits, most significant first. */
  function DigitsValue(ds: string): nat
    requires AllDigits(ds)
  {
    if ds == [] then 0 else DigitsValue(ds[..|ds| - 1]) * 10 + DigitValue(ds[|ds| - 1])
  }

  /** The shortest decimal text of n: "0", or digits without a leading zero. */
  function NatToDigits(n: nat): (ds: string)
    ensures |ds| > 0 && AllDigits(ds)
    ensures |ds| > 1 ==> ds[0] != '0'
  {
    if n < 10 then [Digit(n)] else NatToDigits(n / 10) + [Digit(n % 10)]
  }

  lemma {:induction false} DigitsOfNat(n: nat)
    ensures DigitsValue(NatToDigits(n)) == n
  {
    if n >= 10 {
      var ds := NatToDigits(n);
      assert ds[..|ds| - 1] == NatToDigits(n / 10);
      DigitsOfNat(n / 10);
    }
  }

  /** The other direction: canonical digit strings are exactly the texts
      NatToDigits produces. */
  lemma {:induction false} NatOfDigits(ds: string)
    requires |ds| > 0 && AllDigits(ds) && (|ds| > 1 ==> ds[0] != '0')
    ensures NatToDigits(DigitsValue(ds)) == ds
    decreases |ds|
  {
    var init := ds[..|ds| - 1];
    if |ds| > 1 {
      assert init[0] == ds[0];
      NatOfDigits(init);
      LeadingDigitBound(init);
      assert DigitsValue(init) > 0 || |init| == 1;
      assert DigitsValue(ds) / 10 == DigitsValue(init);
      assert init + [ds[|ds| - 1]] == ds;
    }
  }

  /** A canonical digit string of length at least two has a value of at
      least 10, and one of length one has a value below 10. */
  lemma {:induction false} LeadingDigitBound(ds: string)
    requires |ds| > 0 && AllDigits(ds) && (|ds| > 1 ==> ds[0] != '0')
    ensures |ds| == 1 ==> DigitsValue(ds) < 10
    ensures |ds| > 1 ==> DigitsValue(ds) >= 10
    ensures DigitsValue(ds) > 0 || |ds| == 1
    decreases |ds|
  {
    if |ds| > 1 {
      var init := ds[..|ds| - 1];
      assert init[0] == ds[0];
      LeadingDigitBound(init);
      if |init| == 1 {
        assert DigitsValue(init) == DigitValue(ds[0]) > 0;
      }
    } else {
      assert DigitsValue(ds) == DigitValue(ds[0]);
    }
  }

  /** operator<< on an integer: an optional '-' and the shortest digits. */
  function IntToString(i: int): string
  {
    if i < 0 then "-" + NatToDigits(-i) else NatToDigits(i)
  }

  /** std::isspace in the C locale. */
  predicate IsSpace(c: char)
  {
    c == ' ' || c == '\t' || c == '\n' || c == '\r' || c == '\U{B}' || c == '\U{C}'
  }

  function SkipSpaces(s: string, i: nat): (j: nat)
    requires i <= |s|
    ensures i <= j <= |s|
    ensures forall k :: i <= k < j ==> IsSpace(s[k])
    ensures j < |s| ==> !IsSpace(s[j])
    decreases |s| - i
  {
    if i < |s| && IsSpace(s[i]) then SkipSpaces(s, i + 1) else i
  }

  function DigitRunEnd(s: string, i: nat): (j: nat)
    requires i <= |s|
    ensures i <= j <= |s|
    ensures AllDigits(s[i..j])
    ensures j < |s| ==> !IsDigit(s[j])
    decreases |s| - i
  {
    if i < |s| && IsDigit(s[i]) then DigitRunEnd(s, i + 1) else i
  }

  /** Clamps to the int64 range, as strtoll does on overflow. */
  function Saturate(x: int): int64
  {
    if x > Int64Max then Int64Max as int64
    else if x < Int64Min then Int64Min as int64
    else x as int64
  }

  /** std::strtoll(s, nullptr, 10): leading white space, an optional sign,
      then the longest run of decimal digits; no digits gives 0, and a value
      out of range is clamped. */
  function StrToLL(s: string): int64
  {
    var i := SkipSpaces(s, 0);
    var negative := i < |s| && s[i] == '-';
    var j := if i < |s| && (s[i] == '-' || s[i] == '+') then i + 1 else i;
    var magnitude: int := DigitsValue(s[j..DigitRunEnd(s, j)]);
    Saturate(if negative then -magnitude else magnitude)
  }

  /** On a digit string strtoll gives its value, clamped to the int64 maximum. */
  lemma StrToLLOfDigits(ds: string)
    requires |ds| > 0 && AllDigits(ds)
    ensures StrToLL(ds) as int == if DigitsValue(ds) > Int64Max then Int64Max else DigitsValue(ds)
  {
    assert SkipSpaces(ds, 0) == 0;
    DigitRunToEnd(ds, 0);
    assert ds[0..|ds|] == ds;
  }

  lemma {:induction false} DigitRunToEnd(s: string, i: nat)
    requires i <= |s| && AllDigits(s[i..])
    ensures DigitRunEnd(s, i) == |s|
    decreases |s| - i
  {
    if i < |s| {
      assert s[i] == s[i..][0];
      assert s[i + 1..] == s[i..][1..];
      DigitRunToEnd(s, i + 1);
    }
  }

  /** Reading back what operator<< writes gives the same int64: the printer's
      integer text and the parser's conversion are inverse. */
  lemma StrToLLOfIntToString(i: int64)
    ensures StrToLL(IntToString(i as int)) == i
  {
    var s := IntToString(i as int);
    if i < 0 {
      var ds := NatToDigits(-(i as int));
      assert s[1..] == ds;
      assert SkipSpaces(s, 0) == 0;
      DigitRunToEnd(s, 1);
      assert s[1..DigitRunEnd(s, 1)] == ds;
      DigitsOfNat(-(i as int));
    } else {
      var ds := NatToDigits(i as int);
      assert !IsSpace(s[0]) && s[0] != '-' && s[0] != '+';
      assert SkipSpaces(s, 0) == 0;
      DigitRunToEnd(s, 0);
      assert s[0..|s|] == s;
      DigitsOfNat(i as int);
    }
  }
}
