/** Two candle series joined on their shared epochs, and the returns between them. */
module Aligner {
  import opened Wrappers
  import opened CandleWindow
  import PySeq
  import Reals
  import Rounding

  /** How a timestamp text parses to epoch seconds, or not. */
  type Clock = string -> Option<int>

  /** The usable closes of a series by epoch, the last one winning; a missing close is 0. */
  function CloseMap(candles: seq<Candle>, clock: Clock): (m: map<int, real>)
    ensures forall e :: e in m ==> m[e] > 0.0
  {
    if candles == [] then map[]
    else
      var c := candles[|candles| - 1];
      var m := CloseMap(candles[..|candles| - 1], clock);
      if clock(c.stamp).Some? && c.close > 0.0 then m[clock(c.stamp).value := c.close] else m
  }

  /** c is the last usable candle of its epoch in the list. */
  ghost predicate IsLastClose(candles: seq<Candle>, clock: Clock, i: nat, e: int)
    requires i < |candles|
  {
    && clock(candles[i].stamp) == Some(e) && candles[i].close > 0.0
    && forall j :: i < j < |candles| && clock(candles[j].stamp) == Some(e) ==> candles[j].close <= 0.0
  }

  predicate IsClose(c: Candle, clock: Clock, e: int) {
    clock(c.stamp) == Some(e) && c.close > 0.0
  }

  /** An epoch is in the close map exactly if a candle with a positive close has it. */
  lemma {:induction false} CloseMapHas(candles: seq<Candle>, clock: Clock, e: int)
    ensures e in CloseMap(candles, clock) <==> exists c :: c in candles && IsClose(c, clock, e)
  {
    if candles != [] {
      var init, last := candles[..|candles| - 1], candles[|candles| - 1];
      CloseMapHas(init, clock, e);
      assert candles == init + [last];
      if IsClose(last, clock, e) {
        assert last in candles;
      } else if c :| c in candles && IsClose(c, clock, e) {
        assert c in init;
      }
    }
  }

  /** And the last such candle says which close. */
  lemma {:induction false} CloseMapIsLast(candles: seq<Candle>, clock: Clock, i: nat, e: int)
    requires i < |candles| && IsLastClose(candles, clock, i, e)
    ensures e in CloseMap(candles, clock) && CloseMap(candles, clock)[e] == candles[i].close
  {
    if i < |candles| - 1 {
      LastCloseBefore(candles, clock, i, e);
      CloseMapIsLast(candles[..|candles| - 1], clock, i, e);
    }
  }

  lemma LastCloseBefore(candles: seq<Candle>, clock: Clock, i: nat, e: int)
    requires i < |candles| - 1 && IsLastClose(candles, clock, i, e)
    ensures IsLastClose(candles[..|candles| - 1], clock, i, e)
    ensures clock(candles[|candles| - 1].stamp) == Some(e) ==> candles[|candles| - 1].close <= 0.0
  {
  }

  method BuildCloseMap(candles: seq<Candle>, clock: Clock) returns (m: map<int, real>)
    ensures m == CloseMap(candles, clock)
  {
    m := map[];
    for i := 0 to |candles|
      invariant m == CloseMap(candles[..i], clock)
    {
      assert candles[..i + 1][..i] == candles[..i];
      var epoch := clock(candles[i].stamp);
      if epoch.None? { continue; }
      if candles[i].close > 0.0 {
        m := m[epoch.value := candles[i].close];
      }
    }
    assert candles[..|candles|] == candles;
  }

  // ---- Sorted epochs ----

  ghost predicate IsSortedEpochs(s: seq<int>, es: set<int>) {
    (forall i, j :: 0 <= i < j < |s| ==> s[i] < s[j]) && PySeq.Elements(s) == es
  }

  predicate IsFirst(e: int, es: set<int>) {
    e in es && forall f :: f in es ==> e <= f
  }

  lemma {:induction false} FirstExists(es: set<int>, e: int)
    requires e in es
    ensures exists f :: IsFirst(f, es)
    decreases |es|
  {
    if d :| d in es && d < e {
      FirstExists(es - {e}, d);
      var l :| IsFirst(l, es - {e});
      forall f | f in es ensures l <= f { assert f == e || f in es - {e}; }
      assert IsFirst(l, es);
    } else {
      assert IsFirst(e, es);
    }
  }

  lemma SomeEpoch(es: set<int>)
    ensures es == {} || exists e :: e in es
  {
    if forall e :: e !in es {
      assert es <= {};
    }
  }

  lemma HasFirst(es: set<int>)
    requires es != {}
    ensures exists f :: IsFirst(f, es)
  {
    SomeEpoch(es);
    var e :| e in es;
    FirstExists(es, e);
  }

  lemma {:induction false} SortedExists(es: set<int>)
    ensures exists s :: IsSortedEpochs(s, es)
    decreases |es|
  {
    if es == {} {
      assert IsSortedEpochs([], es);
    } else {
      HasFirst(es);
      var e :| IsFirst(e, es);
      SortedExists(es - {e});
      var rest :| IsSortedEpochs(rest, es - {e});
      FirstThenRest(e, rest, es);
    }
  }

  lemma FirstThenRest(e: int, rest: seq<int>, es: set<int>)
    requires IsFirst(e, es) && IsSortedEpochs(rest, es - {e})
    ensures IsSortedEpochs([e] + rest, es)
  {
    assert forall i :: 0 <= i < |rest| ==> rest[i] in PySeq.Elements(rest);
    assert PySeq.Elements([e] + rest) == {e} + PySeq.Elements(rest);
  }

  /** The ascending list of a set of epochs. */
  ghost function Sorted(es: set<int>): (s: seq<int>)
    ensures IsSortedEpochs(s, es) && |s| == |es|
    ensures forall i :: 0 <= i < |s| ==> s[i] in es
  {
    SortedExists(es);
    var s :| IsSortedEpochs(s, es);
    SortedDistinct(s, es);
    assert forall i :: 0 <= i < |s| ==> s[i] in PySeq.Elements(s);
    s
  }

  /** s lists the epochs of es below all of the rest. */
  ghost predicate Partly(s: seq<int>, rest: set<int>, es: set<int>) {
    rest <= es && IsSortedEpochs(s, es - rest) && forall i, e :: 0 <= i < |s| && e in rest ==> s[i] < e
  }

  lemma PartlyStep(s: seq<int>, rest: set<int>, es: set<int>, e: int)
    requires Partly(s, rest, es) && IsFirst(e, rest)
    ensures Partly(s + [e], rest - {e}, es)
  {
    PySeq.ElementsAppend(s, e);
    assert es - (rest - {e}) == (es - rest) + {e};
  }

  method SortEpochs(es: set<int>) returns (s: seq<int>)
    ensures s == Sorted(es)
  {
    s := [];
    var rest := es;
    while rest != {}
      invariant Partly(s, rest, es)
      decreases |rest|
    {
      HasFirst(rest);
      var e :| e in rest && IsFirst(e, rest);
      PartlyStep(s, rest, es, e);
      s, rest := s + [e], rest - {e};
    }
    SortedUnique(s, Sorted(es), es);
  }

  lemma SortedDistinct(s: seq<int>, es: set<int>)
    requires IsSortedEpochs(s, es)
    ensures |s| == |es|
  {
    PySeq.DistinctLength(s);
  }

  lemma {:induction false} SortedUnique(a: seq<int>, b: seq<int>, es: set<int>)
    requires IsSortedEpochs(a, es) && IsSortedEpochs(b, es)
    ensures a == b
  {
    SortedDistinct(a, es);
    SortedDistinct(b, es);
    if a != [] {
      assert a[0] in PySeq.Elements(b) && b[0] in PySeq.Elements(a);
      assert a[0] == b[0];
      RestSorted(a, es);
      RestSorted(b, es);
      SortedUnique(a[1..], b[1..], es - {a[0]});
    }
  }

  lemma RestSorted(s: seq<int>, es: set<int>)
    requires IsSortedEpochs(s, es) && s != []
    ensures IsSortedEpochs(s[1..], es - {s[0]})
  {
    assert s == [s[0]] + s[1..];
    forall e | e in es - {s[0]} ensures e in s[1..] { assert e in PySeq.Elements(s); }
    forall e | e in s[1..] ensures e in es - {s[0]} { assert e in PySeq.Elements(s); }
  }

  // ---- Returns ----

  function Return(prev: real, next: real): real {
    if prev == 0.0 then 0.0 else (next - prev) / prev
  }

  function Returns(closes: seq<real>): (r: seq<real>)
    ensures |r| == if closes == [] then 0 else |closes| - 1
    ensures forall i :: 0 <= i < |r| ==> r[i] == Return(closes[i], closes[i + 1])
  {
    if closes == [] then []
    else seq(|closes| - 1, i requires 0 <= i < |closes| - 1 => Return(closes[i], closes[i + 1]))
  }

  /** `_simple_returns`. */
  method SimpleReturns(closes: seq<real>) returns (r: seq<real>)
    ensures r == Returns(closes)
  {
    r := [];
    if closes == [] { return; }
    for i := 1 to |closes|
      invariant |r| == i - 1
      invariant forall j :: 0 <= j < i - 1 ==> r[j] == Return(closes[j], closes[j + 1])
    {
      var prev := closes[i - 1];
      r := r + [if prev == 0.0 then 0.0 else (closes[i] - prev) / prev];
    }
  }

  /** A zero price gives no return, whatever follows it. */
  lemma ZeroPriceReturnsNothing(closes: seq<real>, i: nat)
    requires i + 1 < |closes| && closes[i] == 0.0
    ensures Returns(closes)[i] == 0.0
  {
  }

  function Grown(prev: real, r: real): real { prev * (1.0 + r) }

  /** The closes a first price and a list of returns lead to. */
  function Rebuilt(first: real, rs: seq<real>): (closes: seq<real>)
    ensures |closes| == |rs| + 1
  {
    if rs == [] then [first]
    else
      var init := Rebuilt(first, rs[..|rs| - 1]);
      init + [Grown(init[|rs| - 1], rs[|rs| - 1])]
  }

  lemma NextClose(prev: real, next: real, r: real)
    requires prev != 0.0 && r == (next - prev) / prev
    ensures Grown(prev, r) == next
  {
    var step := next - prev;
    assert r * prev == step;
  }

  /** The i-th return grows the i-th price to the next one. */
  predicate GrowsAt(closes: seq<real>, rs: seq<real>, i: nat)
    requires |closes| == |rs| + 1 && i < |rs|
  {
    Grown(closes[i], rs[i]) == closes[i + 1]
  }

  lemma {:induction false} GrowthRebuilds(closes: seq<real>, rs: seq<real>)
    requires |closes| == |rs| + 1 && forall i :: 0 <= i < |rs| ==> GrowsAt(closes, rs, i)
    ensures Rebuilt(closes[0], rs) == closes
  {
    if rs != [] {
      var n := |rs| - 1;
      var init, rest := closes[..n + 1], rs[..n];
      assert GrowsAt(closes, rs, n);
      forall i | 0 <= i < n ensures GrowsAt(init, rest, i) { assert GrowsAt(closes, rs, i); }
      GrowthRebuilds(init, rest);
      assert closes == init + [closes[n + 1]];
    }
  }

  lemma ReturnGrowsAt(closes: seq<real>, i: nat)
    requires i + 1 < |closes| && closes[i] != 0.0
    ensures GrowsAt(closes, Returns(closes), i)
  {
    NextClose(closes[i], closes[i + 1], Returns(closes)[i]);
  }

  /** Returns lose nothing: the first price and the returns give back every price. */
  lemma ReturnsRebuildCloses(closes: seq<real>)
    requires closes != [] && forall i :: 0 <= i < |closes| ==> closes[i] != 0.0
    ensures Rebuilt(closes[0], Returns(closes)) == closes
  {
    var rs := Returns(closes);
    forall i | 0 <= i < |rs| ensures GrowsAt(closes, rs, i) {
      ReturnGrowsAt(closes, i);
    }
    GrowthRebuilds(closes, rs);
  }

  // ---- Alignment ----

  datatype Alignment = Alignment(returnsA: seq<real>, returnsB: seq<real>, count: nat, coverage: real)

  function Smaller(a: nat, b: nat): nat { if a < b then a else b }

  function Coverage(shared: nat, a: nat, b: nat): real {
    var d := Smaller(a, b);
    Rounding.RoundTo(if d > 0 then shared as real / d as real else 0.0, 10000)
  }

  /** The alignment of two close maps on the epochs they share, if those are at least three. */
  ghost function Aligned(a: map<int, real>, b: map<int, real>): Option<Alignment> {
    var es := Sorted(a.Keys * b.Keys);
    if |es| < 3 then None
    else Some(Alignment(Returns(PySeq.Values(a, es)), Returns(PySeq.Values(b, es)), |es|, Coverage(|es|, |a|, |b|)))
  }

  /** `align_and_returns` with simple returns; every early exit is a lack of shared epochs. */
  method AlignAndReturns(candlesA: seq<Candle>, candlesB: seq<Candle>, clock: Clock) returns (r: Option<Alignment>)
    ensures r == Aligned(CloseMap(candlesA, clock), CloseMap(candlesB, clock))
  {
    if candlesA == [] || candlesB == [] { return None; }
    var a := BuildCloseMap(candlesA, clock);
    var b := BuildCloseMap(candlesB, clock);
    if a == map[] || b == map[] { return None; }
    var es := SortEpochs(a.Keys * b.Keys);
    if |es| < 3 { return None; }
    var returnsA := SimpleReturns(PySeq.Values(a, es));
    var returnsB := SimpleReturns(PySeq.Values(b, es));
    r := Some(Alignment(returnsA, returnsB, |es|, Coverage(|es|, |a|, |b|)));
  }

  /** Joining the other way round swaps the return series and changes nothing else. */
  lemma AlignmentSwaps(a: map<int, real>, b: map<int, real>)
    ensures Aligned(a, b).Some? <==> Aligned(b, a).Some?
    ensures Aligned(a, b).Some? ==>
      var x, y := Aligned(a, b).value, Aligned(b, a).value;
      x.returnsA == y.returnsB && x.returnsB == y.returnsA && x.count == y.count && x.coverage == y.coverage
  {
    assert a.Keys * b.Keys == b.Keys * a.Keys;
  }

  /** The first price on some epochs and the returns give back every price on them. */
  ghost predicate GivesBack(closes: map<int, real>, es: seq<int>, growth: seq<real>) {
    && (forall i :: 0 <= i < |es| ==> es[i] in closes)
    && |es| > 0 && |growth| == |es| - 1
    && Rebuilt(closes[es[0]], growth) == PySeq.Values(closes, es)
  }

  lemma ReturnsGiveBack(closes: map<int, real>, shared: set<int>, es: seq<int>)
    requires shared <= closes.Keys && es == Sorted(shared) && es != []
    requires forall e :: e in closes ==> closes[e] > 0.0
    ensures GivesBack(closes, es, Returns(PySeq.Values(closes, es)))
  {
    var prices := PySeq.Values(closes, es);
    assert forall i :: 0 <= i < |prices| ==> prices[i] != 0.0;
    ReturnsRebuildCloses(prices);
  }

  /** The alignment uses every shared epoch once, in ascending order, and nothing else; each
      return series is one shorter, gives back its prices, and the coverage is a fraction. */
  lemma AlignmentIsFaithful(a: map<int, real>, b: map<int, real>)
    requires forall e :: e in a ==> a[e] > 0.0
    requires forall e :: e in b ==> b[e] > 0.0
    ensures Aligned(a, b).Some? <==> |a.Keys * b.Keys| >= 3
    ensures Aligned(a, b).Some? ==>
      var x, es := Aligned(a, b).value, Sorted(a.Keys * b.Keys);
      && IsSortedEpochs(es, a.Keys * b.Keys) && x.count == |a.Keys * b.Keys|
      && GivesBack(a, es, x.returnsA) && GivesBack(b, es, x.returnsB)
      && 0.0 <= x.coverage <= 1.0
  {
    var shared := a.Keys * b.Keys;
    if |shared| >= 3 {
      ReturnsGiveBack(a, shared, Sorted(shared));
      ReturnsGiveBack(b, shared, Sorted(shared));
      SharedAtMost(a.Keys, b.Keys);
      CoverageIsFraction(|shared|, |a|, |b|);
    }
  }

  lemma CoverageNear(q: real, c: real)
    requires c == Rounding.RoundTo(q, 10000)
    ensures c - 0.00005 <= q <= c + 0.00005
  {
    Rounding.RoundToIsNear(q, 10000, 10000.0, 0.00005, q * 10000.0, Rounding.HalfEven(q * 10000.0) as real, c);
  }

  /** The coverage is the shared part of the smaller series, to four places. */
  lemma CoverageIsShare(n: nat, a: nat, b: nat)
    requires a > 0 && b > 0
    ensures a <= b ==> Coverage(n, a, b) - 0.00005 <= n as real / a as real <= Coverage(n, a, b) + 0.00005
    ensures b <= a ==> Coverage(n, a, b) - 0.00005 <= n as real / b as real <= Coverage(n, a, b) + 0.00005
  {
    if a <= b { CoverageNear(n as real / a as real, Coverage(n, a, b)); }
    if b <= a { CoverageNear(n as real / b as real, Coverage(n, a, b)); }
  }

  lemma SharedAtMost(a: set<int>, b: set<int>)
    ensures |a * b| <= |a| && |a * b| <= |b|
  {
    SubsetSize(a * b, a);
    SubsetSize(a * b, b);
  }

  lemma CoverageIsFraction(n: nat, a: nat, b: nat)
    requires n <= a && n <= b
    ensures 0.0 <= Coverage(n, a, b) <= 1.0
  {
    var d := Smaller(a, b);
    if d > 0 {
      Reals.QuotientInUnit(n as real, d as real, n as real / d as real);
      Rounding.RoundToWithin(n as real / d as real, 0, 1, 10000);
    } else {
      Rounding.RoundToInteger(0, 10000);
    }
  }
}
