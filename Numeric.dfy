/** Arithmetic helpers that reproduce Go's semantics on `int` and `float64` operators. */
module Numeric {

  /** Go's `math.Abs` on a real. */
  function Abs(x: real): (r: real)
    ensures r >= 0.0
    ensures r == x || r == -x
  {
    if x < 0.0 then -x else x
  }

  /**
   * Go's integer division `a / b`, which truncates toward zero; Dafny's `/`
   * is Euclidean, so the two differ when `a` is negative.
   */
  function TruncDiv(a: int, b: int): (q: int)
    requires b > 0
    ensures a >= 0 ==> q * b <= a < q * b + b
    ensures a < 0 ==> q * b - b < a <= q * b
    ensures a < 0 ==> q <= 0
  {
    if a >= 0 then a / b else -((-a) / b)
  }

  /** A factor whose product with a positive number is non-negative is itself non-negative. */
  lemma SignOfFactor(u: real, d: real)
    requires d > 0.0 && u * d >= 0.0
    ensures u >= 0.0
  {
  }

  /** Real division is the inverse of multiplication by a non-zero divisor. */
  lemma QuotTimes(n: real, d: real)
    requires d != 0.0
    ensures (n / d) * d == n
  {
  }

  /** The product of two non-negative reals is non-negative. */
  lemma MulNonneg(a: real, b: real)
    requires a >= 0.0 && b >= 0.0
    ensures a * b >= 0.0
  {
  }
}
