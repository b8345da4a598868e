/** Signs of products of real numbers. */
module Reals {

  lemma ProductNotNegative(a: real, b: real)
    requires 0.0 <= a && 0.0 <= b
    ensures 0.0 <= a * b
  {
  }

  lemma ProductPositive(a: real, b: real)
    requires 0.0 < a && 0.0 < b
    ensures 0.0 < a * b
  {
  }

  lemma ProductNegative(a: real, b: real)
    requires 0.0 < a && b < 0.0
    ensures a * b < 0.0
  {
  }

  lemma SquareNotNegative(a: real)
    ensures 0.0 <= a * a
  {
    if a >= 0.0 {
      ProductNotNegative(a, a);
    } else {
      ProductNotNegative(-a, -a);
    }
  }

  lemma ProductSign(k: real, x: real)
    requires 0.0 < k
    ensures 0.0 <= k * x <==> 0.0 <= x
  {
    if x >= 0.0 {
      ProductNotNegative(k, x);
    } else {
      ProductNegative(k, x);
    }
  }
}
