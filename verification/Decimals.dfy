/** Decimal numerals, printed and read back. */
module Decimals {

  predicate IsDigit(c: char) {
    '0' <= c <= '9'
  }

  function DigitOf(n: nat): (c: char)
    requires n < 10
    ensures IsDigit(c)
  {
    "0123456789"[n]
  }

  function ValueOf(c: char): (n: nat)
    requires IsDigit(c)
    ensures n < 10
  {
    (c as int) - ('0' as int)
  }

  lemma DigitRoundTrips(n: nat)
    requires n < 10
    ensures ValueOf(DigitOf(n)) == n
  {
  }

  predicate AllDigits(s: string) {
    forall i | 0 <= i < |s| :: IsDigit(s[i])
  }

  function Decimal(n: nat): (s: string)
    ensures |s| > 0 && AllDigits(s)
  {
    if n < 10 then [DigitOf(n)] else Decimal(n / 10) + [DigitOf(n % 10)]
  }

  function NumberOf(s: string): nat
    requires AllDigits(s)
  {
    if s == "" then 0 else 10 * NumberOf(s[..|s| - 1]) + ValueOf(s[|s| - 1])
  }

  lemma {:induction false} DecimalRoundTrips(n: nat)
    ensures NumberOf(Decimal(n)) == n
  {
    if n < 10 {
      DigitRoundTrips(n);
      assert [DigitOf(n)][..0] == "";
    } else {
      DecimalRoundTrips(n / 10);
      DigitRoundTrips(n % 10);
      assert (Decimal(n / 10) + [DigitOf(n % 10)])[..|Decimal(n / 10)|] == Decimal(n / 10);
    }
  }

  lemma DecimalInjective(m: nat, n: nat)
    requires Decimal(m) == Decimal(n)
    ensures m == n
  {
    DecimalRoundTrips(m);
    DecimalRoundTrips(n);
  }
}
