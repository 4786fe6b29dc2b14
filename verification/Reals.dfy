/** Facts about products and quotients of reals. Products are passed by name: the solver handles
    a named p == a * b better than a * b in place. */
module Reals {

  lemma PositiveProduct(a: real, b: real, p: real)
    requires a > 0.0 && b > 0.0 && p == a * b
    ensures p > 0.0
  {
  }

  lemma SquareSign(x: real, p: real)
    requires p == x * x
    ensures p >= 0.0 && (p == 0.0 <==> x == 0.0)
  {
    if x > 0.0 {
      PositiveProduct(x, x, p);
    } else if x < 0.0 {
      PositiveProduct(-x, -x, p);
    }
  }

  lemma PositiveFactor(a: real, b: real, p: real)
    requires a > 0.0 && p == a * b && p >= 0.0
    ensures b >= 0.0
  {
    if b < 0.0 { PositiveProduct(a, -b, -p); }
  }

  lemma CancelPositive(q: real, r: real, k: real, qk: real, rk: real)
    requires k > 0.0 && qk == q * k && rk == r * k && qk <= rk
    ensures q <= r
  {
    if q > r { PositiveProduct(q - r, k, qk - rk); }
  }

  lemma QuotientOfProduct(n: real, c: real)
    requires n != 0.0
    ensures (n * c) / n == c
  {
  }

  lemma Distribute(a: real, s: real, x: real, t: real)
    requires t == s + x
    ensures a * t == a * s + a * x
  {
  }

  /** -r <= c <= r puts the quotient between minus one and one. */
  lemma QuotientInUnit(c: real, r: real, q: real)
    requires r > 0.0 && q == c / r && -r <= c <= r
    ensures -1.0 <= q <= 1.0
    ensures c >= 0.0 ==> q >= 0.0
  {
    assert q * r == c;
    if q > 1.0 {
      PositiveProduct(q - 1.0, r, c - r);
    } else if q < -1.0 {
      PositiveProduct(-q - 1.0, r, -c - r);
    }
    if q < 0.0 { PositiveProduct(-q, r, -c); }
  }
}
