/**
 * Decimal text of integers, as the modelled code produces and reads it.
 * Python's `str(n)` and `int(digits)` write and read exact base-ten digits
 * (leading zeros allowed when reading). JavaScript's `'★' + n` agrees with
 * this exact rendering only for integers of magnitude up to 2^53: beyond that
 * it prints the shortest digits that read back to the same double, and from
 * 1e21 on it uses exponent form; those ranges are not modelled.
 */
module Decimal {
  import opened Wrappers

  predicate IsDigit(c: char) {
    '0' <= c <= '9'
  }

  predicate AllDigits(s: string) {
    forall i :: 0 <= i < |s| ==> IsDigit(s[i])
  }

  function DigitChar(d: nat): (c: char)
    requires d < 10
    ensures IsDigit(c) && c as int - '0' as int == d
  {
    (('0' as int) + d) as char
  }

  function DigitValue(c: char): (d: nat)
    requires IsDigit(c)
    ensures d < 10 && DigitChar(d) == c
  {
    c as int - '0' as int
  }

  /** The base-ten rendering of `n`: digits only, and no leading zero unless `n` is zero. */
  function NatToDecimal(n: nat): (s: string)
    ensures |s| >= 1 && AllDigits(s)
    ensures s[0] == '0' <==> n == 0
    ensures n < 10 <==> |s| == 1
    decreases n
  {
    if n < 10 then [DigitChar(n)] else NatToDecimal(n / 10) + [DigitChar(n % 10)]
  }

  /** The value of a digit string read most significant digit first (`int(s)` in Python). */
  function DigitsValue(s: string): (v: nat)
    requires AllDigits(s)
    ensures v == 0 <==> forall i :: 0 <= i < |s| ==> s[i] == '0'
  {
    if s == [] then 0 else DigitsValue(s[..|s| - 1]) * 10 + DigitValue(s[|s| - 1])
  }

  /** Reading back a rendered natural number gives the number. */
  lemma {:induction false} NatDecimalRoundTrip(n: nat)
    ensures DigitsValue(NatToDecimal(n)) == n
    decreases n
  {
    var s := NatToDecimal(n);
    if n >= 10 {
      NatDecimalRoundTrip(n / 10);
      assert s[..|s| - 1] == NatToDecimal(n / 10);
    }
  }

  /** Distinct numbers have distinct renderings. */
  lemma NatToDecimalInjective(a: nat, b: nat)
    ensures NatToDecimal(a) == NatToDecimal(b) ==> a == b
  {
    NatDecimalRoundTrip(a);
    NatDecimalRoundTrip(b);
  }

  /** JavaScript's string conversion of an integral number. */
  function IntToDecimal(n: int): (s: string)
    ensures |s| >= 1
    ensures s[0] == '-' <==> n < 0
  {
    if n < 0 then "-" + NatToDecimal(-n) else NatToDecimal(n)
  }

  /** Reads an optional "-" followed by at least one digit. */
  function ParseInt(s: string): (r: Option<int>)
    ensures r.Some? && r.value < 0 ==> |s| > 1 && s[0] == '-'
  {
    if |s| > 0 && s[0] == '-' then
      if |s| > 1 && AllDigits(s[1..]) then Some(-(DigitsValue(s[1..]) as int)) else None
    else if |s| > 0 && AllDigits(s) then Some(DigitsValue(s) as int)
    else None
  }

  /** Reading back a rendered integer gives the integer. */
  lemma IntDecimalRoundTrip(n: int)
    ensures ParseInt(IntToDecimal(n)) == Some(n)
  {
    if n < 0 {
      NegativeDecimalRoundTrip(-n);
    } else {
      NonNegativeDecimalRoundTrip(n);
    }
  }

  lemma NonNegativeDecimalRoundTrip(n: nat)
    ensures ParseInt(NatToDecimal(n)) == Some(n)
  {
    var s := NatToDecimal(n);
    NatDecimalRoundTrip(n);
    assert s[0] != '-';
  }

  lemma NegativeDecimalRoundTrip(n: nat)
    requires n > 0
    ensures ParseInt("-" + NatToDecimal(n)) == Some(-(n as int))
  {
    NatDecimalRoundTrip(n);
    ParseNegative(NatToDecimal(n));
  }

  /** A minus sign before a digit string reads as the negated value of the digits. */
  lemma ParseNegative(t: string)
    requires |t| >= 1 && AllDigits(t)
    ensures ParseInt("-" + t) == Some(-(DigitsValue(t) as int))
  {
    var s := "-" + t;
    assert s[0] == '-' && s[1..] == t;
  }

  lemma IntToDecimalInjective(a: int, b: int)
    ensures IntToDecimal(a) == IntToDecimal(b) ==> a == b
  {
    IntDecimalRoundTrip(a);
    IntDecimalRoundTrip(b);
  }
}
