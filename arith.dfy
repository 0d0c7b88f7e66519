/** Small facts about products and quotients of reals that the solver does not find unaided. */
module Arith {

  lemma MulNonneg(a: real, b: real)
    requires a >= 0.0 && b >= 0.0
    ensures a * b >= 0.0
  {}

  lemma MulPos(a: real, b: real)
    requires a > 0.0 && b > 0.0
    ensures a * b > 0.0
  {}

  lemma MulMonoLeft(a: real, b: real, c: real)
    requires c >= 0.0 && a <= b
    ensures a * c <= b * c
  {
    MulNonneg(b - a, c);
    assert b * c - a * c == (b - a) * c;
  }

  lemma MulMonoRight(c: real, a: real, b: real)
    requires c >= 0.0 && a <= b
    ensures c * a <= c * b
  {
    MulMonoLeft(a, b, c);
  }

  lemma MulStrictRight(c: real, a: real, b: real)
    requires c > 0.0 && a < b
    ensures c * a < c * b
  {
    MulPos(c, b - a);
    assert c * b - c * a == c * (b - a);
  }

  /** A nonnegative `a` times a `k` in [-1, 1] lies in [-a, a]. */
  lemma MulUnitBounds(a: real, k: real)
    requires a >= 0.0 && -1.0 <= k <= 1.0
    ensures -a <= a * k <= a
  {
    MulNonneg(a, k + 1.0);
    assert a * (k + 1.0) == a * k + a;
    MulNonneg(a, 1.0 - k);
    assert a * (1.0 - k) == a - a * k;
  }

  lemma DivSelf(d: real)
    requires d != 0.0
    ensures d / d == 1.0
  {}

  lemma DivNonneg(a: real, d: real)
    requires a >= 0.0 && d > 0.0
    ensures a / d >= 0.0
  {}

  lemma DivPos(a: real, d: real)
    requires a > 0.0 && d > 0.0
    ensures a / d > 0.0
  {}

  lemma DivSub(a: real, b: real, d: real)
    requires d != 0.0
    ensures a / d - b / d == (a - b) / d
  {
    var t, u := a / d, b / d;
    assert t * d == a;
    assert u * d == b;
    assert (t - u) * d == a - b;
  }

  lemma DivStrict(a: real, b: real, d: real)
    requires a < b && d > 0.0
    ensures a / d < b / d
  {
    DivSub(b, a, d);
    DivPos(b - a, d);
  }

  lemma DivMono(a: real, b: real, d: real)
    requires a <= b && d > 0.0
    ensures a / d <= b / d
  {
    DivSub(b, a, d);
    DivNonneg(b - a, d);
  }
}
