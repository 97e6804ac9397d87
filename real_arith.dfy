/**
 Real-number products shared by the engine and the glider models.

 Every product the models reason about goes through `Product`, whose contract
 carries the rule of signs and the scaling bounds; the proofs then need only
 linear steps over `Product` terms.
 */
module RealArith {

  /** a b, with the rule of signs and the bounds of scaling by a fraction. */
  function Product(a: real, b: real): (r: real)
    ensures a >= 0.0 && b >= 0.0 ==> r >= 0.0
    ensures a > 0.0 && b > 0.0 ==> r > 0.0
    ensures a < 0.0 && b < 0.0 ==> r > 0.0
    ensures a >= 0.0 && b <= 0.0 ==> r <= 0.0
    ensures a == 0.0 || b == 0.0 ==> r == 0.0
    ensures a >= 0.0 && 0.0 <= b <= 1.0 ==> r <= a
    ensures 0.0 <= a <= 1.0 && b >= 0.0 ==> r <= b
  {
    if a >= 0.0 && b >= 0.0 then
      ProductNonNegative(a, if b <= 1.0 then 1.0 - b else 0.0);
      ProductNonNegative(if a <= 1.0 then 1.0 - a else 0.0, b);
      if a > 0.0 && b > 0.0 then ProductPositive(a, b); a * b else ProductNonNegative(a, b); a * b
    else if a >= 0.0 && b <= 0.0 then
      ProductNonNegative(a, -b);
      a * b
    else if a < 0.0 && b < 0.0 then
      ProductPositive(-a, -b);
      assert (-a) * (-b) == a * b;
      a * b
    else
      a * b
  }

  /** x^2: never negative, and zero exactly at zero. */
  function Square(x: real): (r: real)
    ensures r >= 0.0
    ensures r == 0.0 <==> x == 0.0
  {
    Product(x, x)
  }

  lemma ProductNonNegative(a: real, b: real)
    requires a >= 0.0 && b >= 0.0
    ensures a * b >= 0.0
  {
  }

  lemma ProductPositive(a: real, b: real)
    requires a > 0.0 && b > 0.0
    ensures a * b > 0.0
  {
  }

  lemma QuotientSign(x: real, d: real)
    requires x >= 0.0 && d > 0.0
    ensures x / d >= 0.0
    ensures x / d == 0.0 <==> x == 0.0
  {
  }

  /** A positive product with a non-negative first factor has two positive factors. */
  lemma PositiveProductFactors(a: real, b: real)
    requires a >= 0.0 && a * b > 0.0
    ensures a > 0.0 && b > 0.0
  {
  }

  /** Scaling by a non-negative factor preserves order. */
  lemma ProductMonotone(k: real, a: real, b: real)
    requires k >= 0.0 && a <= b
    ensures Product(k, a) <= Product(k, b)
  {
    assert Product(k, b) - Product(k, a) == Product(k, b - a);
  }

  /** x^2 grows with x on the non-negative reals. */
  lemma SquareMonotone(x1: real, x2: real)
    requires 0.0 <= x1 <= x2
    ensures Square(x1) <= Square(x2)
  {
    ProductMonotone(x1, x1, x2);
    ProductMonotone(x2, x1, x2);
    assert Product(x1, x2) == Product(x2, x1);
  }
}
