/**
 * C integer division: `/` and `%` on signed operands truncate toward
 * zero, where Dafny's own operators are Euclidean.
 */
module CInt {

  /** C's `a / b` for a positive divisor: the quotient truncated toward zero. */
  function CDiv(a: int, b: int): int
    requires b > 0
  {
    if a >= 0 then a / b else -((-a) / b)
  }

  /** C's `a % b` for a positive divisor: the remainder takes the sign of `a`. */
  function CRem(a: int, b: int): int
    requires b > 0
  {
    if a >= 0 then a % b else -((-a) % b)
  }

  /**
   * The C identity `(a / b) * b + a % b == a`, with a remainder smaller
   * than the divisor in magnitude and never of the opposite sign to `a`;
   * the quotient is symmetric about zero, so `-x / b` is `-(x / b)`.
   */
  lemma {:induction false} CDivRem(a: int, b: int)
    requires b > 0
    ensures CDiv(a, b) * b + CRem(a, b) == a
    ensures -b < CRem(a, b) < b
    ensures a >= 0 ==> CDiv(a, b) == a / b && 0 <= CRem(a, b)
    ensures a < 0 ==> CRem(a, b) <= 0
    ensures CDiv(-a, b) == -CDiv(a, b) && CRem(-a, b) == -CRem(a, b)
  {
    if a < 0 {
      var q, r := (-a) / b, (-a) % b;
      assert q * b + r == -a;
      assert CDiv(a, b) * b + CRem(a, b) == -(q * b) - r;
    }
  }
}
