/**
 * Decimal text of integers, as printf's "%d" writes it, and the reading
 * back of a run of decimal digits, as atoi() does for the tokens this
 * library produces. Shared by the version-string and JSON models.
 */
module Decimal {

  predicate IsDigit(c: char) { '0' <= c <= '9' }

  predicate AllDigits(s: string) { forall i :: 0 <= i < |s| ==> IsDigit(s[i]) }

  function DigitChar(d: nat): (c: char)
    requires d < 10
    ensures IsDigit(c)
  {
    ['0', '1', '2', '3', '4', '5', '6', '7', '8', '9'][d]
  }

  function DigitValue(c: char): nat
    requires IsDigit(c)
  {
    (c as int - '0' as int) as nat
  }

  lemma DigitRoundTrip(d: nat)
    requires d < 10
    ensures DigitValue(DigitChar(d)) == d
  {
  }

  /** "%d" of a non-negative value: most significant digit first, no leading zero. */
  function NatText(n: nat): (s: string)
    ensures |s| > 0 && AllDigits(s)
    ensures n >= 10 ==> s[0] != '0'
  {
    if n < 10 then [DigitChar(n)] else NatText(n / 10) + [DigitChar(n % 10)]
  }

  /** "%d" of any value: a minus sign before the magnitude of a negative value. */
  function IntText(i: int): (s: string)
    ensures |s| > 0
    ensures i >= 0 ==> AllDigits(s)
    ensures i < 0 ==> s[0] == '-' && AllDigits(s[1..])
  {
    if i >= 0 then NatText(i) else "-" + NatText(-i)
  }

  /** The value of a run of digits, most significant first. */
  function DigitsValue(s: string): nat
    requires AllDigits(s)
  {
    if s == [] then 0 else DigitsValue(s[..|s| - 1]) * 10 + DigitValue(s[|s| - 1])
  }

  /** The longest prefix of `s` made of digits. */
  function LeadingDigits(s: string): (p: string)
    ensures AllDigits(p) && p <= s
    ensures |p| < |s| ==> !IsDigit(s[|p|])
  {
    if s == [] || !IsDigit(s[0]) then [] else [s[0]] + LeadingDigits(s[1..])
  }

  /** atoi(): the value of the leading digits (0 when there are none). */
  function Atoi(s: string): nat
  {
    DigitsValue(LeadingDigits(s))
  }

  lemma {:induction false} LeadingDigitsOfDigits(s: string)
    requires AllDigits(s)
    ensures LeadingDigits(s) == s
    decreases |s|
  {
    if s != [] {
      LeadingDigitsOfDigits(s[1..]);
      assert [s[0]] + s[1..] == s;
    }
  }

  /** Reading back what "%d" wrote gives the original value. */
  lemma {:induction false} AtoiNatText(n: nat)
    ensures Atoi(NatText(n)) == n
  {
    LeadingDigitsOfDigits(NatText(n));
    DigitsOfNatText(n);
  }

  lemma {:induction false} DigitsOfNatText(n: nat)
    ensures DigitsValue(NatText(n)) == n
  {
    if n < 10 {
      DigitRoundTrip(n);
    } else {
      var s := NatText(n);
      DigitsOfNatText(n / 10);
      assert s[..|s| - 1] == NatText(n / 10);
      DigitRoundTrip(n % 10);
    }
  }

  /** Distinct values have distinct decimal texts. */
  lemma NatTextInjective(a: nat, b: nat)
    requires NatText(a) == NatText(b)
    ensures a == b
  {
    AtoiNatText(a);
    AtoiNatText(b);
  }
}
