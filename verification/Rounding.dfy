/** Python's `round`: to the nearest, ties to even, over the reals. */
module Rounding {
  import Reals

  function HalfEven(x: real): int {
    var f := x.Floor;
    var d := x - f as real;
    if d < 0.5 then f else if d > 0.5 then f + 1 else if f % 2 == 0 then f else f + 1
  }

  /** `round(x, k)` with scale 10 to the k. */
  function RoundTo(x: real, scale: nat): real
    requires scale > 0
  {
    HalfEven(x * scale as real) as real / scale as real
  }

  lemma HalfEvenMonotone(x: real, y: real)
    requires x <= y
    ensures HalfEven(x) <= HalfEven(y)
  {
    assert x.Floor <= y.Floor;
  }

  lemma HalfEvenExact(n: int)
    ensures HalfEven(n as real) == n
  {
    assert (n as real).Floor == n;
  }

  /** No integer is nearer. */
  lemma HalfEvenIsNear(x: real)
    ensures HalfEven(x) as real - 0.5 <= x <= HalfEven(x) as real + 0.5
  {
  }

  lemma RoundToIs(x: real, scale: nat, xk: real, n: real, r: real)
    requires scale > 0 && xk == x * scale as real && n == HalfEven(xk) as real && r == RoundTo(x, scale)
    ensures r == n / scale as real && n - 0.5 <= xk <= n + 0.5
  {
    HalfEvenIsNear(xk);
  }

  /** Rounding moves a number by half a unit of its last place at most. */
  lemma RoundToIsNear(x: real, scale: nat, k: real, half: real, xk: real, n: real, r: real)
    requires scale > 0 && k == scale as real && half * k == 0.5
    requires xk == x * k && n == HalfEven(xk) as real && r == RoundTo(x, scale)
    ensures r - half <= x <= r + half
  {
    RoundToIs(x, scale, xk, n, r);
    NearQuotient(x, k, xk, n, r, half);
  }

  lemma NearQuotient(x: real, k: real, xk: real, n: real, q: real, half: real)
    requires k > 0.0 && xk == x * k && q == n / k && n - 0.5 <= xk <= n + 0.5 && half * k == 0.5
    ensures q - half <= x <= q + half
  {
    assert q * k == n;
    assert (q - half) * k == n - 0.5 && (q + half) * k == n + 0.5;
    Reals.CancelPositive(q - half, x, k, n - 0.5, xk);
    Reals.CancelPositive(x, q + half, k, xk, n + 0.5);
  }

  /** x is halfway between two integers. */
  predicate IsTie(x: real) {
    x - x.Floor as real == 0.5
  }

  /** Rounding both halves of an integer m loses or gains at most one, and only on a tie: an odd
      m then gains one when the lower neighbour is odd and loses one when it is even. */
  lemma HalfEvenComplement(x: real, m: int)
    ensures HalfEven(x) + HalfEven(m as real - x) ==
      if IsTie(x) && m % 2 == 1 then (if x.Floor % 2 == 1 then m + 1 else m - 1) else m
  {
    var f := x.Floor;
    var d := x - f as real;
    var y := m as real - x;
    if d == 0.0 {
      assert y == (m - f) as real;
      assert y.Floor == m - f;
    } else {
      assert y == (m - f - 1) as real + (1.0 - d);
      assert y.Floor == m - f - 1;
    }
  }

  lemma RoundToMonotone(x: real, y: real, scale: nat)
    requires scale > 0 && x <= y
    ensures RoundTo(x, scale) <= RoundTo(y, scale)
  {
    assert x * scale as real <= y * scale as real;
    HalfEvenMonotone(x * scale as real, y * scale as real);
    DivideMonotone(HalfEven(x * scale as real) as real, HalfEven(y * scale as real) as real, scale as real);
  }

  lemma DivideMonotone(a: real, b: real, c: real)
    requires a <= b && c > 0.0
    ensures a / c <= b / c
  {
  }

  /** An interval between integers is kept. */
  lemma RoundToWithin(x: real, lo: int, hi: int, scale: nat)
    requires scale > 0 && lo as real <= x <= hi as real
    ensures lo as real <= RoundTo(x, scale) <= hi as real
  {
    RoundToInteger(lo, scale);
    RoundToInteger(hi, scale);
    RoundToMonotone(lo as real, x, scale);
    RoundToMonotone(x, hi as real, scale);
  }

  lemma RoundToInteger(n: int, scale: nat)
    requires scale > 0
    ensures RoundTo(n as real, scale) == n as real
  {
    assert n as real * scale as real == (n * scale) as real;
    HalfEvenExact(n * scale);
  }
}
