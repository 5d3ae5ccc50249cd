/** Decimal rendering of natural numbers, as Go's `fmt.Sprintf("%d", n)`
    writes a non-negative integer, and the value a digit string denotes. */
module Decimal {

  predicate IsDigit(c: char) {
    '0' <= c <= '9'
  }

  predicate AllDigits(s: string) {
    forall k :: 0 <= k < |s| ==> IsDigit(s[k])
  }

  /** A rendering with no superfluous leading zero: one digit at least, and
      a leading '0' only in the string "0" itself. */
  predicate IsCanonical(s: string) {
    |s| >= 1 && AllDigits(s) && (s[0] == '0' ==> s == "0")
  }

  function Pow10(k: nat): (p: nat)
    ensures p >= 1
  {
    if k == 0 then 1 else 10 * Pow10(k - 1)
  }

  function DigitChar(d: nat): (c: char)
    requires d < 10
    ensures IsDigit(c)
  {
    ('0' as int + d) as char
  }

  /** The value of a string of decimal digits, most significant first. */
  function DecimalValue(s: string): nat
    requires AllDigits(s)
  {
    if s == [] then 0
    else DecimalValue(s[..|s| - 1]) * 10 + (s[|s| - 1] as int - '0' as int)
  }

  /** The decimal rendering of `n`, most significant digit first. */
  function DecimalString(n: nat): (r: string)
    ensures IsCanonical(r)
  {
    if n < 10 then [DigitChar(n)] else DecimalString(n / 10) + [DigitChar(n % 10)]
  }

  /** Reading back a rendering gives the number that was rendered. */
  lemma {:induction false} DecimalRoundTrip(n: nat)
    ensures DecimalValue(DecimalString(n)) == n
  {
    var r := DecimalString(n);
    if n >= 10 {
      DecimalRoundTrip(n / 10);
      assert r[..|r| - 1] == DecimalString(n / 10);
    }
  }

  /** A number below 10^k, for k >= 1, takes at most k digits. */
  lemma {:induction false} DecimalLength(n: nat, k: nat)
    requires k >= 1 && n < Pow10(k)
    ensures |DecimalString(n)| <= k
  {
    if n >= 10 {
      assert k >= 2 && n / 10 < Pow10(k - 1);
      DecimalLength(n / 10, k - 1);
    }
  }

  /** Rendering the value of a canonical string gives the string back, so
      rendering is a bijection between numbers and canonical strings. */
  lemma {:induction false} CanonicalRoundTrip(s: string)
    requires IsCanonical(s)
    ensures DecimalString(DecimalValue(s)) == s
  {
    var init := s[..|s| - 1];
    var d := s[|s| - 1] as int - '0' as int;
    if |s| > 1 {
      assert init[0] == s[0];
      CanonicalRoundTrip(init);
      DecimalPositive(init);
      assert DecimalValue(s) / 10 == DecimalValue(init);
      assert DecimalValue(s) % 10 == d;
      assert DigitChar(d) == s[|s| - 1];
      assert s == init + [s[|s| - 1]];
    }
  }

  lemma {:induction false} DecimalPositive(s: string)
    requires IsCanonical(s) && s != "0"
    ensures DecimalValue(s) >= 1
  {
    if |s| > 1 {
      var init := s[..|s| - 1];
      assert init[0] == s[0];
      if init != "0" { DecimalPositive(init); }
    }
  }
}
