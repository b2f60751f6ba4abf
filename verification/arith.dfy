/** Small facts of real arithmetic that the solver needs spelled out as lemmas
    of their own. */
module Arith {

  /** The product of two non-negative numbers is non-negative. */
  lemma ProductNonNegative(a: real, b: real)
    requires a >= 0.0 && b >= 0.0
    ensures a * b >= 0.0
  {
  }

  /** The product of two positive numbers is positive. */
  lemma ProductPositive(a: real, b: real)
    requires a > 0.0 && b > 0.0
    ensures a * b > 0.0
  {
  }

  /** A non-negative number times a non-positive one is non-positive. */
  lemma ProductNonPositive(a: real, b: real)
    requires a >= 0.0 && b <= 0.0
    ensures a * b <= 0.0
  {
  }

  /** A number whose product with a positive number is non-negative (positive) is itself
      non-negative (positive). */
  lemma SignFromProduct(x: real, d: real)
    requires d > 0.0
    ensures x * d >= 0.0 ==> x >= 0.0
    ensures x * d > 0.0 ==> x > 0.0
  {
    if x < 0.0 {
      assert (-x) * d > 0.0;
    }
  }

  /** Zero over a non-zero denominator is zero. */
  lemma QuotientOfZero(den: real)
    requires den != 0.0
    ensures 0.0 / den == 0.0
  {
  }

  /** A non-negative numerator over a positive denominator is non-negative. */
  lemma QuotientNonNegative(num: real, den: real)
    requires num >= 0.0 && den > 0.0
    ensures num / den >= 0.0
  {
  }

  /** Dividing by a non-zero number and multiplying back gives the number again. */
  lemma QuotientTimes(x: real, d: real)
    requires d != 0.0
    ensures x / d * d == x
  {
  }
}
