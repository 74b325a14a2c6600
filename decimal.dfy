/**
 * Decimal text of integers, as Rust's `{}` formatting writes it for the
 * unsigned coordinates and the signed tracking id, together with the
 * inverse parsers that show the text determines the number.
 */
module Decimal {
  import opened Wrappers

  predicate IsDigit(c: char) { '0' <= c <= '9' }

  predicate AllDigits(s: string) {
    forall i :: 0 <= i < |s| ==> IsDigit(s[i])
  }

  function DigitChar(d: nat): (c: char)
    requires d < 10
    ensures IsDigit(c) && c as int - '0' as int == d
  {
    ('0' as int + d) as char
  }

  function DigitValue(c: char): (d: nat)
    requires IsDigit(c)
    ensures d < 10
  {
    c as int - '0' as int
  }

  /** The shortest decimal text of `n`: digits only, and no leading zero. */
  function NatToDecimal(n: nat): (s: string)
    ensures |s| >= 1 && AllDigits(s)
    ensures s[0] == '0' <==> n == 0
    ensures |s| == 1 <==> n < 10
    decreases n
  {
    if n < 10 then [DigitChar(n)]
    else NatToDecimal(n / 10) + [DigitChar(n % 10)]
  }

  /** Decimal text of a signed integer: a minus sign before the magnitude when negative. */
  function IntToDecimal(i: int): (s: string)
    ensures |s| >= 1
    ensures s[0] == '-' <==> i < 0
    ensures AllDigits(s[1..])
  {
    if i < 0 then "-" + NatToDecimal(-i) else NatToDecimal(i)
  }

  /** The number a string of digits denotes (the empty string denotes 0). */
  function DecimalValue(s: string): nat
    requires AllDigits(s)
  {
    if s == [] then 0
    else 10 * DecimalValue(s[..|s| - 1]) + DigitValue(s[|s| - 1])
  }

  /** Reads an optional minus sign followed by at least one digit. */
  function ParseInt(s: string): Option<int> {
    if |s| > 0 && s[0] == '-' then
      if |s| > 1 && AllDigits(s[1..]) then Some(0 - DecimalValue(s[1..]) as int) else None
    else if |s| > 0 && AllDigits(s) then Some(DecimalValue(s))
    else None
  }

  lemma {:induction false} DecimalRoundTrip(n: nat)
    ensures DecimalValue(NatToDecimal(n)) == n
    decreases n
  {
    if n >= 10 {
      var p := NatToDecimal(n / 10);
      var s := p + [DigitChar(n % 10)];
      assert s[..|s| - 1] == p;
      DecimalRoundTrip(n / 10);
    }
  }

  /** The decimal text of a signed integer reads back as that integer. */
  lemma ParseIntRoundTrip(i: int)
    ensures ParseInt(IntToDecimal(i)) == Some(i)
  {
    if i < 0 {
      var t := NatToDecimal(-i);
      var s := "-" + t;
      assert IntToDecimal(i) == s;
      assert |s| > 1 && s[0] == '-' && s[1..] == t;
      DecimalRoundTrip(-i);
      assert ParseInt(s) == Some(0 - DecimalValue(t) as int);
    } else {
      var t := NatToDecimal(i);
      assert IntToDecimal(i) == t && t[0] != '-';
      DecimalRoundTrip(i);
    }
  }

  /** Equal texts mean equal numbers: no two coordinates print alike. */
  lemma NatToDecimalInjective(m: nat, n: nat)
    requires NatToDecimal(m) == NatToDecimal(n)
    ensures m == n
  {
    DecimalRoundTrip(m);
    DecimalRoundTrip(n);
  }
}
