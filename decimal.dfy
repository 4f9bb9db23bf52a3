/**
 * Decimal text of integers, as JavaScript's template literals print a JSON
 * integer (`${data.port || 25565}`), and the inverse reading of that text.
 * The reading exists only to state what the printing means: the printed text
 * determines the number it was printed from.
 */
module Decimal {

  predicate IsDigit(c: char) {
    '0' <= c <= '9'
  }

  predicate IsDigits(s: string) {
    forall i :: 0 <= i < |s| ==> IsDigit(s[i])
  }

  /** A canonical decimal numeral: an optional minus sign, then at least one
      digit, no leading zero unless the numeral is "0", and no "-0". */
  predicate IsDecimal(s: string) {
    if |s| > 0 && s[0] == '-' then
      |s| > 1 && IsDigits(s[1..]) && s[1] != '0'
    else
      |s| > 0 && IsDigits(s) && (s[0] == '0' ==> |s| == 1)
  }

  function DigitChar(d: nat): (c: char)
    requires d < 10
    ensures IsDigit(c)
  {
    ('0' as int + d) as char
  }

  function DigitValue(c: char): (d: nat)
    requires IsDigit(c)
    ensures d < 10
  {
    c as int - '0' as int
  }

  /** The digits of `n`, most significant first, without leading zeros. */
  function NatToDecimal(n: nat): (s: string)
    ensures |s| >= 1 && IsDigits(s)
    ensures s[0] == '0' <==> n == 0
    ensures n < 10 <==> |s| == 1
  {
    if n < 10 then [DigitChar(n)] else NatToDecimal(n / 10) + [DigitChar(n % 10)]
  }

  /** What JavaScript prints for an integer-valued number of magnitude at
      most 2^53. */
  function IntToDecimal(i: int): (s: string)
    ensures IsDecimal(s)
    ensures s[0] == '-' <==> i < 0
  {
    if i < 0 then "-" + NatToDecimal(-i) else NatToDecimal(i)
  }

  /** The value of a string of digits, read most significant first. */
  function DigitsValue(s: string): nat
    requires IsDigits(s)
  {
    if s == [] then 0 else DigitsValue(s[..|s| - 1]) * 10 + DigitValue(s[|s| - 1])
  }

  /** The integer a canonical decimal numeral denotes. */
  function DecimalValue(s: string): int
    requires IsDecimal(s)
  {
    if s[0] == '-' then -(DigitsValue(s[1..]) as int) else DigitsValue(s)
  }

  lemma DigitRoundTrip(d: nat)
    requires d < 10
    ensures DigitValue(DigitChar(d)) == d
  {
  }

  lemma {:induction false} NatToDecimalRoundTrip(n: nat)
    ensures DigitsValue(NatToDecimal(n)) == n
  {
    var s := NatToDecimal(n);
    if n < 10 {
      DigitRoundTrip(n);
      assert s[..0] == [];
    } else {
      NatToDecimalRoundTrip(n / 10);
      DigitRoundTrip(n % 10);
      assert s[..|s| - 1] == NatToDecimal(n / 10);
    }
  }

  /** Printing then reading gives the number back, for every integer. */
  lemma IntToDecimalRoundTrip(i: int)
    ensures DecimalValue(IntToDecimal(i)) == i
  {
    var s := IntToDecimal(i);
    if i < 0 {
      assert s[1..] == NatToDecimal(-i);
      NatToDecimalRoundTrip(-i);
    } else {
      NatToDecimalRoundTrip(i);
    }
  }

  /** Two different integers are never printed the same way. */
  lemma IntToDecimalInjective(a: int, b: int)
    requires IntToDecimal(a) == IntToDecimal(b)
    ensures a == b
  {
    IntToDecimalRoundTrip(a);
    IntToDecimalRoundTrip(b);
  }
}
