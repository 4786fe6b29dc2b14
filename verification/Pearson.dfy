/** The Pearson coefficient over exact reals. */
module Pearson {
  import opened Wrappers
  import opened Reals

  function Sum(xs: seq<real>): real {
    if xs == [] then 0.0 else Sum(xs[..|xs| - 1]) + xs[|xs| - 1]
  }

  function Products(xs: seq<real>, ys: seq<real>): (r: seq<real>)
    requires |xs| == |ys|
    ensures |r| == |xs| && forall i :: 0 <= i < |xs| ==> r[i] == xs[i] * ys[i]
  {
    seq(|xs|, i requires 0 <= i < |xs| => xs[i] * ys[i])
  }

  function Dot(xs: seq<real>, ys: seq<real>): real
    requires |xs| == |ys|
  {
    Sum(Products(xs, ys))
  }

  function Mean(xs: seq<real>): real
    requires xs != []
  {
    Sum(xs) / |xs| as real
  }

  /** The deviations from the mean. */
  function Dev(xs: seq<real>): (d: seq<real>)
    requires xs != []
    ensures |d| == |xs| && forall i :: 0 <= i < |xs| ==> d[i] == xs[i] - Mean(xs)
  {
    seq(|xs|, i requires 0 <= i < |xs| => xs[i] - Mean(xs))
  }

  function Cov(xs: seq<real>, ys: seq<real>): real
    requires xs != [] && |xs| == |ys|
  {
    Dot(Dev(xs), Dev(ys))
  }

  function Var(xs: seq<real>): real
    requires xs != []
  {
    Dot(Dev(xs), Dev(xs))
  }

  /** r is the positive square root of v. */
  predicate IsRoot(r: real, v: real) {
    r > 0.0 && r * r == v
  }

  predicate Defined(xs: seq<real>, ys: seq<real>) {
    |xs| >= 2 && |ys| == |xs| && Var(xs) > 0.0 && Var(ys) > 0.0
  }

  function Clamp(r: real): real {
    var low := if r < 1.0 then r else 1.0;
    if low > -1.0 then low else -1.0
  }

  /** `_pearson`, given the square root the power operator yields. */
  function Coefficient(xs: seq<real>, ys: seq<real>, root: real): Option<real>
    requires Defined(xs, ys) ==> IsRoot(root, Var(xs) * Var(ys))
  {
    if |xs| < 2 || |ys| != |xs| then None
    else if Var(xs) <= 0.0 || Var(ys) <= 0.0 then None
    else Some(Clamp(Cov(xs, ys) / root))
  }

  // ---- Sums ----

  lemma SameEntries(a: seq<real>, b: seq<real>)
    requires |a| == |b| && forall i :: 0 <= i < |a| ==> a[i] == b[i]
    ensures a == b
  {
  }

  lemma {:induction false} SumNonNegative(xs: seq<real>)
    requires forall i :: 0 <= i < |xs| ==> xs[i] >= 0.0
    ensures Sum(xs) >= 0.0
    ensures Sum(xs) == 0.0 <==> forall i :: 0 <= i < |xs| ==> xs[i] == 0.0
  {
    if xs != [] {
      var init := xs[..|xs| - 1];
      SumNonNegative(init);
      assert forall i :: 0 <= i < |init| ==> init[i] == xs[i];
    }
  }

  lemma {:induction false} SumPlus(xs: seq<real>, ys: seq<real>, zs: seq<real>)
    requires |xs| == |ys| == |zs| && forall i :: 0 <= i < |xs| ==> zs[i] == xs[i] + ys[i]
    ensures Sum(zs) == Sum(xs) + Sum(ys)
  {
    if xs != [] { SumPlus(xs[..|xs| - 1], ys[..|xs| - 1], zs[..|xs| - 1]); }
  }

  function Scaled(a: real, xs: seq<real>): (r: seq<real>)
    ensures |r| == |xs| && forall i :: 0 <= i < |xs| ==> r[i] == a * xs[i]
  {
    seq(|xs|, i requires 0 <= i < |xs| => a * xs[i])
  }

  lemma {:induction false} SumScaled(a: real, xs: seq<real>)
    ensures Sum(Scaled(a, xs)) == a * Sum(xs)
  {
    if xs != [] {
      var n := |xs| - 1;
      SumScaled(a, xs[..n]);
      SameEntries(Scaled(a, xs)[..n], Scaled(a, xs[..n]));
      Distribute(a, Sum(xs[..n]), xs[n], Sum(xs));
    }
  }

  lemma {:induction false} SumOfConstant(xs: seq<real>, c: real, n: real)
    requires n == |xs| as real && forall i :: 0 <= i < |xs| ==> xs[i] == c
    ensures Sum(xs) == c * n
  {
    if xs != [] {
      SumOfConstant(xs[..|xs| - 1], c, n - 1.0);
      Distribute(c, n - 1.0, 1.0, n);
    }
  }

  lemma DotCommutes(xs: seq<real>, ys: seq<real>)
    requires |xs| == |ys|
    ensures Dot(xs, ys) == Dot(ys, xs)
  {
    SameEntries(Products(xs, ys), Products(ys, xs));
  }

  lemma DotSelf(xs: seq<real>)
    ensures Dot(xs, xs) >= 0.0
    ensures Dot(xs, xs) == 0.0 <==> forall i :: 0 <= i < |xs| ==> xs[i] == 0.0
  {
    var p := Products(xs, xs);
    forall i | 0 <= i < |p| ensures p[i] >= 0.0 && (p[i] == 0.0 <==> xs[i] == 0.0) { SquareSign(xs[i], p[i]); }
    SumNonNegative(p);
  }

  lemma DotScaled(a: real, xs: seq<real>, ys: seq<real>)
    requires |xs| == |ys|
    ensures Dot(Scaled(a, xs), ys) == a * Dot(xs, ys)
  {
    var p, q := Products(Scaled(a, xs), ys), Scaled(a, Products(xs, ys));
    forall i | 0 <= i < |p| ensures p[i] == q[i] { Reassociate(a, xs[i], ys[i]); }
    SameEntries(p, q);
    SumScaled(a, Products(xs, ys));
  }

  lemma Reassociate(a: real, x: real, y: real)
    ensures (a * x) * y == a * (x * y)
  {
  }

  // ---- Cauchy-Schwarz ----

  /** a * y - b * x, entry by entry. */
  function Residual(a: real, ys: seq<real>, b: real, xs: seq<real>): (r: seq<real>)
    requires |xs| == |ys|
    ensures |r| == |xs| && forall i :: 0 <= i < |xs| ==> r[i] == a * ys[i] - b * xs[i]
  {
    seq(|xs|, i requires 0 <= i < |xs| => a * ys[i] - b * xs[i])
  }

  /** ws is a * xs + b * ys + c * zs, entry by entry. */
  ghost predicate IsCombined(a: real, xs: seq<real>, b: real, ys: seq<real>, c: real, zs: seq<real>, ws: seq<real>) {
    |xs| == |ys| == |zs| == |ws| && forall i :: 0 <= i < |xs| ==> ws[i] == a * xs[i] + b * ys[i] + c * zs[i]
  }

  lemma SumCombined(a: real, xs: seq<real>, b: real, ys: seq<real>, c: real, zs: seq<real>, ws: seq<real>)
    requires IsCombined(a, xs, b, ys, c, zs, ws)
    ensures Sum(ws) == a * Sum(xs) + b * Sum(ys) + c * Sum(zs)
  {
    var p, q, r := Scaled(a, xs), Scaled(b, ys), Scaled(c, zs);
    var pq := seq(|xs|, i requires 0 <= i < |xs| => p[i] + q[i]);
    SumPlus(p, q, pq);
    SumPlus(pq, r, ws);
    SumScaled(a, xs);
    SumScaled(b, ys);
    SumScaled(c, zs);
  }

  lemma ResidualEntry(a: real, y: real, b: real, x: real, w: real, yy: real, xy: real, xx: real, ww: real)
    requires w == a * y - b * x && yy == y * y && xy == x * y && xx == x * x && ww == w * w
    ensures ww == (a * a) * yy + (-2.0 * (a * b)) * xy + (b * b) * xx
  {
  }

  lemma ResidualEntries(a: real, ys: seq<real>, b: real, xs: seq<real>, a2: real, ab: real, b2: real)
    requires |xs| == |ys| && a2 == a * a && ab == -2.0 * (a * b) && b2 == b * b
    ensures var r := Residual(a, ys, b, xs);
      IsCombined(a2, Products(ys, ys), ab, Products(xs, ys), b2, Products(xs, xs), Products(r, r))
  {
    var r := Residual(a, ys, b, xs);
    forall i | 0 <= i < |xs|
      ensures Products(r, r)[i] == a2 * Products(ys, ys)[i] + ab * Products(xs, ys)[i] + b2 * Products(xs, xs)[i]
    {
      ResidualAt(a, ys, b, xs, a2, ab, b2, i);
    }
  }

  lemma ResidualAt(a: real, ys: seq<real>, b: real, xs: seq<real>, a2: real, ab: real, b2: real, i: nat)
    requires |xs| == |ys| && i < |xs| && a2 == a * a && ab == -2.0 * (a * b) && b2 == b * b
    ensures var r := Residual(a, ys, b, xs);
      Products(r, r)[i] == a2 * Products(ys, ys)[i] + ab * Products(xs, ys)[i] + b2 * Products(xs, xs)[i]
  {
    var r := Residual(a, ys, b, xs);
    ResidualEntry(a, ys[i], b, xs[i], r[i], Products(ys, ys)[i], Products(xs, ys)[i], Products(xs, xs)[i], Products(r, r)[i]);
  }

  lemma DotResidual(a: real, ys: seq<real>, b: real, xs: seq<real>, a2: real, ab: real, b2: real)
    requires |xs| == |ys| && a2 == a * a && ab == -2.0 * (a * b) && b2 == b * b
    ensures Dot(Residual(a, ys, b, xs), Residual(a, ys, b, xs)) == a2 * Dot(ys, ys) + ab * Dot(xs, ys) + b2 * Dot(xs, xs)
  {
    var r := Residual(a, ys, b, xs);
    ResidualEntries(a, ys, b, xs, a2, ab, b2);
    SumCombined(a2, Products(ys, ys), ab, Products(xs, ys), b2, Products(xs, xs), Products(r, r));
  }

  lemma ResidualFactor(xx: real, xy: real, yy: real, a2: real, ab: real, b2: real, p: real)
    requires a2 == xx * xx && ab == -2.0 * (xx * xy) && b2 == xy * xy
    requires p == a2 * yy + ab * xy + b2 * xx
    ensures p == xx * (xx * yy - xy * xy)
  {
  }

  /** Scaling both series until they could cancel leaves a sum of squares. */
  lemma ResidualSquare(xs: seq<real>, ys: seq<real>, xx: real, xy: real, yy: real, p: real)
    requires |xs| == |ys| && xx == Dot(xs, xs) && xy == Dot(xs, ys) && yy == Dot(ys, ys)
    requires p == Dot(Residual(xx, ys, xy, xs), Residual(xx, ys, xy, xs))
    ensures p == xx * (xx * yy - xy * xy)
  {
    var a2, ab, b2 := xx * xx, -2.0 * (xx * xy), xy * xy;
    DotResidual(xx, ys, xy, xs, a2, ab, b2);
    ResidualFactor(xx, xy, yy, a2, ab, b2, p);
  }

  lemma CauchySchwarz(xs: seq<real>, ys: seq<real>)
    requires |xs| == |ys|
    ensures Dot(xs, ys) * Dot(xs, ys) <= Dot(xs, xs) * Dot(ys, ys)
  {
    var xx, xy, yy := Dot(xs, xs), Dot(xs, ys), Dot(ys, ys);
    DotSelf(xs);
    if xx == 0.0 {
      DotWithZero(xs, ys);
    } else {
      var r := Residual(xx, ys, xy, xs);
      ResidualSquare(xs, ys, xx, xy, yy, Dot(r, r));
      DotSelf(r);
      PositiveFactor(xx, xx * yy - xy * xy, Dot(r, r));
    }
  }

  lemma DotWithZero(xs: seq<real>, ys: seq<real>)
    requires |xs| == |ys| && forall i :: 0 <= i < |xs| ==> xs[i] == 0.0
    ensures Dot(xs, ys) == 0.0
  {
    SumOfConstant(Products(xs, ys), 0.0, |xs| as real);
  }

  // ---- The coefficient ----

  lemma AbsFromSquares(c: real, r: real, cc: real, rr: real)
    requires r > 0.0 && cc == c * c && rr == r * r && cc <= rr
    ensures -r <= c <= r
  {
    if c > r {
      PositiveProduct(c - r, c + r, cc - rr);
    } else if c < -r {
      PositiveProduct(-c - r, r - c, cc - rr);
    }
  }

  /** The clamp never changes the exact quotient. */
  lemma ClampIsIdle(xs: seq<real>, ys: seq<real>, root: real)
    requires Defined(xs, ys) && IsRoot(root, Var(xs) * Var(ys))
    ensures Coefficient(xs, ys, root) == Some(Cov(xs, ys) / root)
    ensures -1.0 <= Cov(xs, ys) / root <= 1.0
  {
    var c := Cov(xs, ys);
    CauchySchwarz(Dev(xs), Dev(ys));
    AbsFromSquares(c, root, c * c, Var(xs) * Var(ys));
    QuotientInUnit(c, root, c / root);
  }

  /** Swapping the series gives the same coefficient. */
  lemma CoefficientIsSymmetric(xs: seq<real>, ys: seq<real>, root: real)
    requires Defined(xs, ys) ==> IsRoot(root, Var(xs) * Var(ys))
    ensures Defined(ys, xs) ==> IsRoot(root, Var(ys) * Var(xs))
    ensures Coefficient(xs, ys, root) == Coefficient(ys, xs, root)
  {
    if |xs| == |ys| && xs != [] { DotCommutes(Dev(xs), Dev(ys)); }
  }

  // ---- When there is no coefficient ----

  predicate Constant(xs: seq<real>) {
    forall i :: 0 <= i < |xs| ==> xs[i] == xs[0]
  }

  lemma MeanOfConstant(xs: seq<real>)
    requires xs != [] && Constant(xs)
    ensures Mean(xs) == xs[0]
  {
    SumOfConstant(xs, xs[0], |xs| as real);
    QuotientOfProduct(|xs| as real, xs[0]);
  }

  lemma NoVarianceIffConstant(xs: seq<real>)
    requires xs != []
    ensures Var(xs) >= 0.0
    ensures Var(xs) == 0.0 <==> Constant(xs)
  {
    var d := Dev(xs);
    DotSelf(d);
    if Constant(xs) {
      MeanOfConstant(xs);
    } else {
      var i :| 0 <= i < |xs| && xs[i] != xs[0];
      assert d[i] != 0.0 || d[0] != 0.0;
    }
  }

  /** There is no coefficient exactly for short, unequal or constant series. */
  lemma NoneIff(xs: seq<real>, ys: seq<real>, root: real)
    requires Defined(xs, ys) ==> IsRoot(root, Var(xs) * Var(ys))
    ensures Coefficient(xs, ys, root) == None <==> |xs| < 2 || |ys| != |xs| || Constant(xs) || Constant(ys)
  {
    if xs != [] { NoVarianceIffConstant(xs); }
    if ys != [] { NoVarianceIffConstant(ys); }
  }

  // ---- Changing units ----

  /** a * x + b, entry by entry. */
  function Affine(a: real, xs: seq<real>, b: real): (r: seq<real>)
    ensures |r| == |xs| && forall i :: 0 <= i < |xs| ==> r[i] == a * xs[i] + b
  {
    seq(|xs|, i requires 0 <= i < |xs| => a * xs[i] + b)
  }

  function Repeated(b: real, n: nat): (r: seq<real>)
    ensures |r| == n && forall i :: 0 <= i < n ==> r[i] == b
  {
    seq(n, i => b)
  }

  lemma AffineParts(a: real, xs: seq<real>, b: real)
    ensures Sum(Affine(a, xs, b)) == Sum(Scaled(a, xs)) + Sum(Repeated(b, |xs|))
  {
    SumPlus(Scaled(a, xs), Repeated(b, |xs|), Affine(a, xs, b));
  }

  lemma SumAffine(a: real, xs: seq<real>, b: real, n: real)
    requires n == |xs| as real
    ensures Sum(Affine(a, xs, b)) == a * Sum(xs) + b * n
  {
    AffineParts(a, xs, b);
    SumScaled(a, xs);
    SumOfConstant(Repeated(b, |xs|), b, n);
  }

  lemma AffineQuotient(a: real, s: real, n: real, b: real, t: real, q: real)
    requires n > 0.0 && t == a * s + b * n && q == s / n
    ensures t / n == a * q + b
  {
    assert q * n == s;
    assert t == n * (a * q + b);
    QuotientOfProduct(n, a * q + b);
  }

  lemma MeanAffine(a: real, xs: seq<real>, b: real)
    requires xs != []
    ensures Mean(Affine(a, xs, b)) == a * Mean(xs) + b
  {
    SumAffine(a, xs, b, |xs| as real);
    AffineQuotient(a, Sum(xs), |xs| as real, b, Sum(Affine(a, xs, b)), Mean(xs));
  }

  lemma AffineDifference(a: real, x: real, b: real, m: real, y: real, n: real)
    requires y == a * x + b && n == a * m + b
    ensures y - n == a * (x - m)
  {
  }

  lemma DevAffine(a: real, xs: seq<real>, b: real)
    requires xs != []
    ensures Dev(Affine(a, xs, b)) == Scaled(a, Dev(xs))
  {
    MeanAffine(a, xs, b);
    var ys := Affine(a, xs, b);
    var d, e := Dev(ys), Scaled(a, Dev(xs));
    forall i | 0 <= i < |xs| ensures d[i] == e[i] { AffineDifference(a, xs[i], b, Mean(xs), ys[i], Mean(ys)); }
    SameEntries(d, e);
  }

  lemma CovAffine(a: real, xs: seq<real>, b: real, ys: seq<real>)
    requires xs != [] && |xs| == |ys|
    ensures Cov(Affine(a, xs, b), ys) == a * Cov(xs, ys)
  {
    DevAffine(a, xs, b);
    DotScaled(a, Dev(xs), Dev(ys));
  }

  lemma VarAffine(a: real, xs: seq<real>, b: real, v: real)
    requires xs != [] && v == a * Var(xs)
    ensures Var(Affine(a, xs, b)) == a * v
  {
    DevAffine(a, xs, b);
    ScaledSquare(a, Dev(xs), Dev(Affine(a, xs, b)), Var(xs), v);
  }

  lemma ScaledSquare(a: real, d: seq<real>, e: seq<real>, dd: real, v: real)
    requires e == Scaled(a, d) && dd == Dot(d, d) && v == a * dd
    ensures Dot(e, e) == a * v
  {
    DotScaled(a, d, e);
    DotCommutes(d, e);
    DotScaled(a, d, d);
  }

  lemma RootUnique(r: real, s: real, v: real)
    requires IsRoot(r, v) && IsRoot(s, v)
    ensures r == s
  {
    if r > s {
      PositiveProduct(r - s, r + s, v - v);
    } else if s > r {
      PositiveProduct(s - r, r + s, v - v);
    }
  }

  lemma ScaledQuotient(k: real, c: real, r: real, kc: real, kr: real)
    requires r != 0.0 && kr != 0.0 && kc == k * c && kr == k * r
    ensures kc / kr == c / r
  {
    var q := c / r;
    assert q * r == c;
    assert kc == kr * q;
    QuotientOfProduct(kr, q);
  }

  lemma ScaledRoot(k: real, root: real, v: real, kr: real, kv: real, kkv: real)
    requires k > 0.0 && IsRoot(root, v) && kr == k * root && kv == k * v && kkv == k * kv
    ensures IsRoot(kr, kkv)
  {
    PositiveProduct(k, root, kr);
  }

  lemma NegatedQuotient(c: real, d: real)
    requires d != 0.0
    ensures (-c) / d == -(c / d)
  {
  }

  /** Scaling the covariance by a and the variance product by a * a keeps the quotient's size. */
  lemma ScaledCoefficient(a: real, c: real, v: real, root: real, root': real, ac: real, av: real)
    requires a != 0.0 && IsRoot(root, v) && ac == a * c && av == a * v && IsRoot(root', a * av)
    ensures ac / root' == (if a > 0.0 then c / root else -(c / root))
  {
    var k := if a > 0.0 then a else -a;
    var kc, kv, kr := k * c, k * v, k * root;
    ScaledRoot(k, root, v, kr, kv, k * kv);
    assert k * kv == a * av;
    RootUnique(root', kr, a * av);
    ScaledQuotient(k, c, root, kc, kr);
    if a < 0.0 {
      assert ac == -kc;
      NegatedQuotient(kc, kr);
    }
  }

  lemma ScaledProduct(a: real, vx: real, vy: real, avx: real, aavx: real, v: real)
    requires a != 0.0 && vx > 0.0 && avx == a * vx && aavx == a * avx && v == vx * vy
    ensures aavx > 0.0 && aavx * vy == a * (a * v)
  {
    SquareSign(a, a * a);
    PositiveProduct(a * a, vx, aavx);
  }

  /** How the parts of the coefficient change with the units of a series. */
  lemma PartsUnderAffine(a: real, xs: seq<real>, b: real, ys: seq<real>, v: real)
    requires a != 0.0 && Defined(xs, ys) && v == Var(xs) * Var(ys)
    ensures Defined(Affine(a, xs, b), ys)
    ensures Var(Affine(a, xs, b)) * Var(ys) == a * (a * v)
  {
    var vx := Var(xs);
    VarAffine(a, xs, b, a * vx);
    ScaledProduct(a, vx, Var(ys), a * vx, Var(Affine(a, xs, b)), v);
  }

  lemma QuotientUnderAffine(
    a: real, xs: seq<real>, b: real, ys: seq<real>, c: real, v: real, v': real, root: real, root': real)
    requires a != 0.0 && Defined(xs, ys) && v == Var(xs) * Var(ys) && IsRoot(root, v) && c == Cov(xs, ys)
    requires v' == Var(Affine(a, xs, b)) * Var(ys) && IsRoot(root', v')
    ensures Cov(Affine(a, xs, b), ys) / root' == (if a > 0.0 then c / root else -(c / root))
  {
    PartsUnderAffine(a, xs, b, ys, v);
    CovAffine(a, xs, b, ys);
    ScaledCoefficient(a, c, v, root, root', Cov(Affine(a, xs, b), ys), a * v);
  }

  lemma DefinedUnderAffine(a: real, xs: seq<real>, b: real, ys: seq<real>)
    requires a != 0.0 && Defined(xs, ys)
    ensures Defined(Affine(a, xs, b), ys)
  {
    PartsUnderAffine(a, xs, b, ys, Var(xs) * Var(ys));
  }

  lemma CoefficientIs(xs: seq<real>, ys: seq<real>, v: real, root: real, q: real)
    requires Defined(xs, ys) && v == Var(xs) * Var(ys) && IsRoot(root, v) && q == Cov(xs, ys) / root
    ensures Coefficient(xs, ys, root) == Some(q)
  {
    ClampIsIdle(xs, ys, root);
  }

  /** Measuring a series in other units keeps the coefficient, or flips its sign if the units
      run backwards. */
  lemma CoefficientUnderAffine(
    a: real, xs: seq<real>, b: real, ys: seq<real>, v: real, v': real, root: real, root': real, q: real)
    requires a != 0.0 && Defined(xs, ys)
    requires v == Var(xs) * Var(ys) && IsRoot(root, v) && q == Cov(xs, ys) / root
    requires v' == Var(Affine(a, xs, b)) * Var(ys) && IsRoot(root', v')
    ensures Defined(Affine(a, xs, b), ys)
    ensures Coefficient(xs, ys, root) == Some(q)
    ensures Coefficient(Affine(a, xs, b), ys, root') == Some(if a > 0.0 then q else -q)
  {
    DefinedUnderAffine(a, xs, b, ys);
    CoefficientIs(xs, ys, v, root, q);
    QuotientUnderAffine(a, xs, b, ys, Cov(xs, ys), v, v', root, root');
    CoefficientIs(Affine(a, xs, b), ys, v', root', if a > 0.0 then q else -q);
  }

  // ---- The extremes ----

  ghost predicate AllZero(r: seq<real>) {
    forall i :: 0 <= i < |r| ==> r[i] == 0.0
  }

  lemma ZeroProduct(a: real, b: real, p: real)
    requires b == 0.0 && p == a * b
    ensures p == 0.0
  {
  }

  lemma NoResidualEntries(dx: seq<real>, dy: seq<real>, vx: real, c: real, vy: real, r: seq<real>)
    requires |dx| == |dy| && vx == Dot(dx, dx) && c == Dot(dx, dy) && vy == Dot(dy, dy)
    requires vx * vy - c * c == 0.0 && r == Residual(vx, dy, c, dx)
    ensures AllZero(r)
  {
    ResidualSquare(dx, dy, vx, c, vy, Dot(r, r));
    ZeroProduct(vx, vx * vy - c * c, Dot(r, r));
    DotSelf(r);
  }

  lemma OnTheLine(v: real, y: real, c: real, x: real, a: real)
    requires v > 0.0 && c == a * v && v * y - c * x == 0.0
    ensures y == a * x
  {
    assert v * y == v * (a * x);
    QuotientOfProduct(v, y);
    QuotientOfProduct(v, a * x);
  }

  lemma EntryOnTheLine(vx: real, c: real, a: real, b: real, x: real, mx: real, y: real, my: real, dx: real, dy: real, z: real)
    requires vx > 0.0 && c == a * vx && vx * dy - c * dx == 0.0
    requires dx == x - mx && dy == y - my && b == my - a * mx && z == a * x + b
    ensures y == z
  {
    OnTheLine(vx, dy, c, dx, a);
    AffineDifference(a, x, b, mx, z, my);
  }

  lemma NoResidualAt(xs: seq<real>, ys: seq<real>, vx: real, c: real, a: real, b: real, r: seq<real>, i: nat)
    requires i < |xs| == |ys| && vx > 0.0 && c == a * vx && b == Mean(ys) - a * Mean(xs)
    requires r == Residual(vx, Dev(ys), c, Dev(xs)) && r[i] == 0.0
    ensures Affine(a, xs, b)[i] == ys[i]
  {
    var dx, dy := Dev(xs)[i], Dev(ys)[i];
    EntryOnTheLine(vx, c, a, b, xs[i], Mean(xs), ys[i], Mean(ys), dx, dy, Affine(a, xs, b)[i]);
  }

  /** Without any residual the second series is an affine image of the first. */
  lemma NoResidual(xs: seq<real>, ys: seq<real>, vx: real, c: real, a: real, b: real, r: seq<real>)
    requires xs != [] && |xs| == |ys| && vx > 0.0 && c == a * vx && b == Mean(ys) - a * Mean(xs)
    requires r == Residual(vx, Dev(ys), c, Dev(xs)) && AllZero(r)
    ensures ys == Affine(a, xs, b)
  {
    var zs := Affine(a, xs, b);
    forall i | 0 <= i < |xs| ensures zs[i] == ys[i] {
      NoResidualAt(xs, ys, vx, c, a, b, r, i);
    }
    SameEntries(ys, zs);
  }

  /** ys is xs in other units that do not run backwards. */
  ghost predicate ForwardImage(xs: seq<real>, ys: seq<real>) {
    exists a, b :: a > 0.0 && ys == Affine(a, xs, b)
  }

  lemma SlopeIs(c: real, v: real, a: real)
    requires c > 0.0 && v > 0.0 && a == c / v
    ensures a > 0.0 && c == a * v
  {
    if a < 0.0 { PositiveProduct(-a, v, -c); }
  }

  lemma SquareRemainder(vx: real, vy: real, v: real, c: real)
    requires v == vx * vy && IsRoot(c, v)
    ensures vx * vy - c * c == 0.0
  {
  }

  lemma PerfectIsAffine(xs: seq<real>, ys: seq<real>, v: real, c: real)
    requires Defined(xs, ys) && v == Var(xs) * Var(ys) && IsRoot(c, v) && c == Cov(xs, ys)
    ensures ForwardImage(xs, ys)
  {
    var dx, dy, vx := Dev(xs), Dev(ys), Var(xs);
    var a := c / vx;
    SlopeIs(c, vx, a);
    SquareRemainder(vx, Var(ys), v, c);
    NoResidualEntries(dx, dy, vx, c, Var(ys), Residual(vx, dy, c, dx));
    NoResidual(xs, ys, vx, c, a, Mean(ys) - a * Mean(xs), Residual(vx, dy, c, dx));
  }

  lemma PartsOfAffine(a: real, xs: seq<real>, b: real, c: real)
    requires xs != [] && c == a * Var(xs)
    ensures Cov(xs, Affine(a, xs, b)) == c && Var(Affine(a, xs, b)) == a * c
  {
    CovAffine(a, xs, b, xs);
    VarAffine(a, xs, b, c);
    DotCommutes(Dev(xs), Dev(Affine(a, xs, b)));
  }

  lemma RootOfAffine(a: real, vx: real, c: real, vy: real, v: real, root: real)
    requires a > 0.0 && vx > 0.0 && c == a * vx && vy == a * c && v == vx * vy && IsRoot(root, v)
    ensures root == c
  {
    PositiveProduct(a, vx, c);
    assert v == c * c;
    RootUnique(root, c, v);
  }

  lemma AffineIsPerfect(a: real, xs: seq<real>, b: real, v: real, root: real)
    requires a > 0.0 && Defined(xs, Affine(a, xs, b))
    requires v == Var(xs) * Var(Affine(a, xs, b)) && IsRoot(root, v)
    ensures Cov(xs, Affine(a, xs, b)) == root
  {
    var c := a * Var(xs);
    PartsOfAffine(a, xs, b, c);
    RootOfAffine(a, Var(xs), c, Var(Affine(a, xs, b)), v, root);
  }

  lemma OneIff(xs: seq<real>, ys: seq<real>, v: real, root: real)
    requires Defined(xs, ys) && v == Var(xs) * Var(ys) && IsRoot(root, v)
    ensures Coefficient(xs, ys, root) == Some(1.0) <==> Cov(xs, ys) == root
  {
    var q := Cov(xs, ys) / root;
    CoefficientIs(xs, ys, v, root, q);
    UnitQuotient(Cov(xs, ys), root, q);
  }

  lemma ImageIff(xs: seq<real>, ys: seq<real>, v: real, root: real)
    requires Defined(xs, ys) && v == Var(xs) * Var(ys) && IsRoot(root, v)
    ensures Cov(xs, ys) == root <==> ForwardImage(xs, ys)
  {
    if Cov(xs, ys) == root {
      PerfectIsAffine(xs, ys, v, root);
    } else if ForwardImage(xs, ys) {
      var a, b :| a > 0.0 && ys == Affine(a, xs, b);
      AffineIsPerfect(a, xs, b, v, root);
    }
  }

  /** The coefficient is one exactly when one series is the other in other, forward units. */
  lemma PerfectIff(xs: seq<real>, ys: seq<real>, v: real, root: real)
    requires Defined(xs, ys) && v == Var(xs) * Var(ys) && IsRoot(root, v)
    ensures Coefficient(xs, ys, root) == Some(1.0) <==> ForwardImage(xs, ys)
  {
    OneIff(xs, ys, v, root);
    ImageIff(xs, ys, v, root);
  }

  lemma UnitQuotient(c: real, r: real, q: real)
    requires r > 0.0 && q == c / r
    ensures q == 1.0 <==> c == r
  {
    assert q * r == c;
  }
}
