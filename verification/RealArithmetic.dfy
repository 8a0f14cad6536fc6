/** Order facts about products of reals. Products come back as named values, so that callers
    reason about them linearly. */
module RealArithmetic {

  lemma ProductNonNegative(x: real, y: real, p: real)
    requires x >= 0.0 && y >= 0.0 && p == x * y
    ensures p >= 0.0
  {
  }

  lemma ProductPositive(x: real, y: real, p: real)
    requires x > 0.0 && y > 0.0 && p == x * y
    ensures p > 0.0
  {
  }

  lemma MulMono(x: real, y: real, k: real) returns (xk: real, yk: real)
    requires x <= y && k >= 0.0
    ensures xk == x * k && yk == y * k && xk <= yk
  {
    xk, yk := x * k, y * k;
    ProductNonNegative(y - x, k, yk - xk);
  }

  lemma MulStrict(x: real, y: real, k: real) returns (xk: real, yk: real)
    requires x < y && k > 0.0
    ensures xk == x * k && yk == y * k && xk < yk
  {
    xk, yk := x * k, y * k;
    ProductPositive(y - x, k, yk - xk);
  }

  lemma Square(x: real) returns (s: real)
    ensures s == x * x && s >= 0.0 && (x != 0.0 ==> s > 0.0)
  {
    s := x * x;
    if x > 0.0 {
      ProductPositive(x, x, s);
    } else if x < 0.0 {
      ProductPositive(-x, -x, s);
    } else {
      assert s == 0.0;
    }
  }
}
