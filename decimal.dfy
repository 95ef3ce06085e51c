/** Decimal rendering of integers, as Python's `str(n)` and an f-string `{n}`
    produce it for an `int`: an optional minus sign followed by the base-ten
    digits, most significant first, with no leading zeros. CPython refuses,
    by default, to convert an integer of more than 4300 digits; the model
    renders every integer. */
module Decimal {

  predicate IsDigit(c: char) {
    '0' <= c <= '9'
  }

  predicate AllDigits(s: string) {
    forall i :: 0 <= i < |s| ==> IsDigit(s[i])
  }

  function DigitChar(d: nat): (c: char)
    requires d < 10
    ensures IsDigit(c) && (c as int) - ('0' as int) == d
  {
    ['0', '1', '2', '3', '4', '5', '6', '7', '8', '9'][d]
  }

  function DigitValue(c: char): (d: nat)
    requires IsDigit(c)
    ensures d < 10
  {
    (c as int) - ('0' as int)
  }

  /** The digits of `n`, most significant first. */
  function NatToString(n: nat): (s: string)
    ensures |s| > 0 && AllDigits(s)
    ensures s[0] == '0' ==> n == 0 && s == "0"
    decreases n
  {
    if n < 10 then [DigitChar(n)] else NatToString(n / 10) + [DigitChar(n % 10)]
  }

  /** Python's `str(i)` for an integer `i` (one of at most 4300 digits, in
      Python). `ParseInt` reads it back, and it carries a minus sign exactly
      when `i` is negative. */
  function IntToString(i: int): (s: string)
    ensures IsIntText(s) && ParseInt(s) == i
    ensures s[0] == '-' <==> i < 0
  {
    if i < 0 then
      NegativeRoundTrip(-i);
      "-" + NatToString(-i)
    else
      NonNegativeRoundTrip(i);
      NatToString(i)
  }

  /** The value of a string of decimal digits, read most significant first:
      the reference reading against which the rendering is checked. */
  function DigitsValue(s: string): nat
    requires AllDigits(s)
  {
    if s == [] then 0 else DigitsValue(s[..|s| - 1]) * 10 + DigitValue(s[|s| - 1])
  }

  /** An optional `-` followed by digits. */
  predicate IsIntText(s: string) {
    s != [] && (if s[0] == '-' then AllDigits(s[1..]) else AllDigits(s))
  }

  /** Reads back what `IntToString` writes. */
  function ParseInt(s: string): (r: int)
    requires IsIntText(s)
  {
    if s[0] == '-' then 0 - DigitsValue(s[1..]) else DigitsValue(s) as int
  }

  /** Reading the digits of `n` back gives `n`. */
  lemma {:induction false} NatToStringRoundTrip(n: nat)
    ensures DigitsValue(NatToString(n)) == n
    decreases n
  {
    var s := NatToString(n);
    if n >= 10 {
      NatToStringRoundTrip(n / 10);
      assert s[..|s| - 1] == NatToString(n / 10);
    }
  }

  /** The rendering of an integer has no padding: a minus sign for a
      negative one, then digits that start with `0` only for zero, which is
      the single digit `0`. */
  lemma IntToStringShape(i: int)
    ensures |IntToString(i)| > 0
    ensures i < 0 ==> AllDigits(IntToString(i)[1..]) && IntToString(i)[1] != '0'
    ensures i >= 0 ==> AllDigits(IntToString(i))
    ensures i > 0 ==> IntToString(i)[0] != '0'
    ensures i == 0 ==> IntToString(i) == "0"
  {
  }

  /** The rendering of a non-negative integer reads back as a number. */
  lemma {:induction false} NonNegativeRoundTrip(n: nat)
    ensures IsIntText(NatToString(n)) && ParseInt(NatToString(n)) == n
  {
    var d := NatToString(n);
    assert IsDigit(d[0]);
    NatToStringRoundTrip(n);
  }

  /** A minus sign in front of the digits of `n` reads back as `-n`. */
  lemma {:induction false} NegativeRoundTrip(n: nat)
    requires n > 0
    ensures IsIntText("-" + NatToString(n)) && ParseInt("-" + NatToString(n)) == 0 - n
  {
    var d := NatToString(n);
    assert ("-" + d)[1..] == d;
    NatToStringRoundTrip(n);
  }

  /** Different integers have different renderings. */
  lemma IntToStringInjective(i: int, j: int)
    requires IntToString(i) == IntToString(j)
    ensures i == j
  {
  }
}
