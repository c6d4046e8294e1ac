/**
 * Small facts of ordered-field and integer arithmetic, each proved on its own
 * so that the products and quotients they mention stay out of larger proofs.
 */
module Arith {

  lemma MulMonotone(a: int, b: int, h: int)
    requires a <= b && h >= 0
    ensures a * h <= b * h
  {
    assert b * h - a * h == (b - a) * h;
  }

  lemma ProductNonNegative(a: real, b: real)
    requires a >= 0.0 && b >= 0.0
    ensures a * b >= 0.0
  {
  }

  lemma ProductPositive(a: real, b: real)
    requires (a > 0.0 && b > 0.0) || (a < 0.0 && b < 0.0)
    ensures a * b > 0.0
  {
  }

  lemma SquareNonNegative(a: real, b: real)
    requires a == b
    ensures a * b >= 0.0
  {
    if a > 0.0 || a < 0.0 {
      ProductPositive(a, b);
    }
  }

  /** k·a ≤ k·b for k ≥ 0 and a ≤ b. */
  lemma MulLeft(k: real, a: real, b: real)
    requires k >= 0.0 && a <= b
    ensures k * a <= k * b
  {
    ProductNonNegative(k, b - a);
    assert k * b - k * a == k * (b - a);
  }

  /** a·d lies between 0 and d when a is in [0, 1]. */
  lemma ScaleBounds(a: real, d: real)
    requires 0.0 <= a <= 1.0
    ensures d >= 0.0 ==> 0.0 <= a * d <= d
    ensures d <= 0.0 ==> d <= a * d <= 0.0
    ensures a > 0.0 && d > 0.0 ==> a * d > 0.0
    ensures a == 1.0 ==> a * d == d
  {
    if d >= 0.0 {
      ProductNonNegative(a, d);
      ProductNonNegative(1.0 - a, d);
      if a > 0.0 && d > 0.0 {
        ProductPositive(a, d);
      }
    } else {
      ProductNonNegative(a, -d);
      ProductNonNegative(1.0 - a, -d);
    }
    assert d - a * d == (1.0 - a) * d;
    assert a * (-d) == -(a * d);
  }

  /** a·d < d when a < 1 and d > 0. */
  lemma ScaleBelow(a: real, d: real)
    requires a < 1.0 && d > 0.0
    ensures a * d < d
  {
    ProductPositive(1.0 - a, d);
    assert d - a * d == (1.0 - a) * d;
  }

  /** The sign of a quotient by a positive number is the sign of the numerator. */
  lemma QuotientSign(n: real, d: real)
    requires d > 0.0
    ensures n >= 0.0 ==> n / d >= 0.0
    ensures n > 0.0 ==> n / d > 0.0
    ensures n <= 0.0 ==> n / d <= 0.0
    ensures n == 0.0 ==> n / d == 0.0
  {
    var q := n / d;
    assert q * d == n;
    if q < 0.0 && n >= 0.0 {
      ProductPositive(-q, d);
    }
    if q > 0.0 && n <= 0.0 {
      ProductPositive(q, d);
    }
  }

  /** Dividing by a positive number keeps the order. */
  lemma QuotientMonotone(a: real, b: real, d: real)
    requires a <= b && d > 0.0
    ensures a / d <= b / d
  {
    QuotientSign(b - a, d);
    assert (b - a) / d == b / d - a / d;
  }

  /** Twice a product of two numbers of the same sign is positive. */
  lemma TwiceProductPositive(a: real, b: real)
    requires (a > 0.0 && b > 0.0) || (a < 0.0 && b < 0.0)
    ensures 2.0 * (a * b) > 0.0
  {
    ProductPositive(a, b);
  }
}
