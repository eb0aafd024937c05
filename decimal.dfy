/**
 * Decimal rendering of magnitudes: the "{0}" of every counted template and of
 * every ordinal, and its inverse, used to state which number a phrase shows.
 */
module Decimal {

  predicate IsDigit(c: char) {
    '0' <= c <= '9'
  }

  predicate AllDigits(s: string) {
    forall i :: 0 <= i < |s| ==> IsDigit(s[i])
  }

  function DigitChar(d: nat): (c: char)
    requires d < 10
    ensures IsDigit(c) && DigitValue(c) == d
  {
    ('0' as int + d) as char
  }

  function DigitValue(c: char): nat
    requires IsDigit(c)
  {
    c as int - '0' as int
  }

  /** The shortest base-10 spelling of n, as Python's str(n) for n >= 0. */
  function NatToDecimal(n: nat): (s: string)
    ensures 1 <= |s| && AllDigits(s)
    ensures s[|s| - 1] == DigitChar(n % 10)
    ensures |s| == 1 <==> n < 10
    decreases n
  {
    if n < 10 then [DigitChar(n)] else NatToDecimal(n / 10) + [DigitChar(n % 10)]
  }

  /** Reads a string of digits as a number (the inverse of NatToDecimal). */
  function DecimalToNat(s: string): nat
    requires AllDigits(s)
    decreases |s|
  {
    if s == [] then 0 else 10 * DecimalToNat(s[..|s| - 1]) + DigitValue(s[|s| - 1])
  }

  /** Reading back a rendered magnitude gives the magnitude. */
  lemma {:induction false} DecimalRoundTrip(n: nat)
    ensures DecimalToNat(NatToDecimal(n)) == n
    decreases n
  {
    var s := NatToDecimal(n);
    if n >= 10 {
      DecimalRoundTrip(n / 10);
      assert s[..|s| - 1] == NatToDecimal(n / 10);
    }
  }

  /** A rendered magnitude has no leading zero, except for zero itself. */
  lemma {:induction false} NoLeadingZero(n: nat)
    ensures NatToDecimal(n)[0] == '0' <==> n == 0
    decreases n
  {
    if n >= 10 {
      NoLeadingZero(n / 10);
      assert NatToDecimal(n)[0] == NatToDecimal(n / 10)[0];
    }
  }

  /** The next-to-last character of a rendering of n >= 10 is the tens digit. */
  lemma TensDigit(n: nat)
    requires n >= 10
    ensures |NatToDecimal(n)| >= 2
    ensures NatToDecimal(n)[|NatToDecimal(n)| - 2] == DigitChar((n / 10) % 10)
  {
    var s := NatToDecimal(n);
    assert s == NatToDecimal(n / 10) + [DigitChar(n % 10)];
  }

  /** The last two decimal digits of n are (n / 10) % 10 and n % 10. */
  lemma LastTwoDigits(n: nat)
    ensures n % 100 == 10 * ((n / 10) % 10) + n % 10
  {
    var q := n / 10;
    assert n == 10 * q + n % 10;
    assert q == 10 * (q / 10) + q % 10;
    var t := 10 * (q % 10) + n % 10;
    assert 0 <= t < 100;
    assert n == 100 * (q / 10) + t;
  }

  /** The longest prefix of s made of digits: the numeral a phrase starts with. */
  function LeadingDigits(s: string): (d: string)
    ensures AllDigits(d) && d <= s
    ensures |d| < |s| ==> !IsDigit(s[|d|])
    decreases |s|
  {
    if s != [] && IsDigit(s[0]) then [s[0]] + LeadingDigits(s[1..]) else []
  }

  /** The number a phrase starts with, or 0 when it starts with no digit. */
  function NumeralOf(s: string): nat {
    DecimalToNat(LeadingDigits(s))
  }

  /** The digits of s followed by a non-digit are exactly the leading numeral. */
  lemma {:induction false} LeadingDigitsOfConcat(d: string, rest: string)
    requires AllDigits(d)
    requires rest == [] || !IsDigit(rest[0])
    ensures LeadingDigits(d + rest) == d
    decreases |d|
  {
    if d != [] {
      assert (d + rest)[1..] == d[1..] + rest;
      LeadingDigitsOfConcat(d[1..], rest);
    } else {
      assert d + rest == rest;
    }
  }

  /** A magnitude rendered before a non-digit is read back as that magnitude. */
  lemma NumeralShown(n: nat, rest: string)
    requires rest == [] || !IsDigit(rest[0])
    ensures NumeralOf(NatToDecimal(n) + rest) == n
  {
    LeadingDigitsOfConcat(NatToDecimal(n), rest);
    DecimalRoundTrip(n);
  }

  /** Exactly two digits, zero-padded: n % 100 as the last two digits of a year. */
  function TwoDigits(n: nat): (s: string)
    requires n < 100
    ensures |s| == 2 && AllDigits(s) && DecimalToNat(s) == n
  {
    var s := [DigitChar(n / 10), DigitChar(n % 10)];
    assert s[..1] == [DigitChar(n / 10)] && s[..1][..0] == [];
    assert DecimalToNat(s[..1]) == n / 10;
    s
  }

  /** The last two characters of a rendering of n >= 10 are TwoDigits(n % 100). */
  lemma LastTwoCharacters(n: nat)
    requires n >= 10
    ensures |NatToDecimal(n)| >= 2
    ensures NatToDecimal(n)[|NatToDecimal(n)| - 2..] == TwoDigits(n % 100)
  {
    var s := NatToDecimal(n);
    TensDigit(n);
    LastTwoDigits(n);
    assert (n % 100) / 10 == (n / 10) % 10;
    assert (n % 100) % 10 == n % 10;
  }
}
