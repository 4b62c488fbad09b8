/**
 * Decimal rendering of unsigned integers, as Rust's `u64::to_string`
 * produces it: the shortest base-10 digit string, no sign, no leading zeros.
 */
module Decimal {

  predicate IsDigit(c: char) {
    '0' <= c <= '9'
  }

  function DigitChar(d: nat): (c: char)
    requires d < 10
    ensures IsDigit(c) && c as int - '0' as int == d
  {
    ('0' as int + d) as char
  }

  function DigitValue(c: char): int
  {
    c as int - '0' as int
  }

  /** The decimal text of `n`, most significant digit first: it ends with the units digit. */
  function NatToString(n: nat): (r: string)
    ensures |r| >= 1 && r[|r| - 1] == DigitChar(n % 10)
  {
    if n < 10 then [DigitChar(n)] else NatToString(n / 10) + [DigitChar(n % 10)]
  }

  /**
   * The decimal text is a non-empty run of digits with no leading zero
   * (the only text that starts with '0' is "0" itself), one digit long
   * exactly for the numbers below ten.
   */
  lemma {:induction false} NatToStringWellFormed(n: nat)
    ensures |NatToString(n)| >= 1
    ensures forall i :: 0 <= i < |NatToString(n)| ==> IsDigit(NatToString(n)[i])
    ensures NatToString(n)[0] == '0' <==> n == 0
    ensures n < 10 <==> |NatToString(n)| == 1
  {
    if n >= 10 {
      NatToStringWellFormed(n / 10);
    }
  }

  /** Reads a string of digits back as a number (most significant digit first). */
  function ParseDecimal(s: string): int
  {
    if s == [] then 0 else ParseDecimal(s[..|s| - 1]) * 10 + DigitValue(s[|s| - 1])
  }

  lemma {:induction false} DecimalRoundTrip(n: nat)
    ensures ParseDecimal(NatToString(n)) == n
  {
    var r := NatToString(n);
    NatToStringWellFormed(n);
    if n < 10 {
      assert r[..0] == [];
    } else {
      DecimalRoundTrip(n / 10);
      NatToStringWellFormed(n / 10);
      assert r[..|r| - 1] == NatToString(n / 10);
    }
  }

  /** Distinct numbers have distinct decimal texts. */
  lemma NatToStringInjective(a: nat, b: nat)
    ensures NatToString(a) == NatToString(b) ==> a == b
  {
    NatToStringWellFormed(a);
    NatToStringWellFormed(b);
    DecimalRoundTrip(a);
    DecimalRoundTrip(b);
  }
}
