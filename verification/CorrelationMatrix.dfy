/** The pairwise correlation matrix of the subscribed symbols, and its lookups. */
module CorrelationMatrix {
  import opened Wrappers
  import opened CandleWindow
  import opened MarketState
  import opened Subscriptions
  import Aligner
  import Pearson
  import PySeq
  import Reals
  import Symbols

  datatype Pair = Pair(a: string, b: string)

  function Swapped(p: Pair): Pair { Pair(p.b, p.a) }

  datatype PairValue = PairValue(pair: Pair, coefficient: Option<real>, bars: nat, coverage: real, coverageOk: bool)

  /** A matrix snapshot; `order` is the insertion order of the dictionary `pairs`. */
  datatype MatrixSnapshot = MatrixSnapshot(
    symbols: seq<string>, order: seq<Pair>, pairs: map<Pair, PairValue>, minPairBars: nat, allCoverageOk: bool)
  {
    /** `get_pair`: either key order will do. */
    function GetPair(a: string, b: string): Option<PairValue> {
      var ab := Pair(Symbols.Upper(a), Symbols.Upper(b));
      if ab in pairs then Some(pairs[ab])
      else if Swapped(ab) in pairs then Some(pairs[Swapped(ab)])
      else None
    }

    predicate Listed() {
      forall p :: p in order ==> p in pairs
    }

    /** No pair is stored under both orders, and none names a blank symbol. */
    ghost predicate Triangular() {
      forall p :: p in pairs ==> Swapped(p) !in pairs && p.a != "" && p.b != ""
    }

    lemma TriangularLookup(a: string, b: string)
      requires Triangular()
      ensures GetPair(a, b) == GetPair(b, a)
      ensures GetPair(a, b).Some? ==> Symbols.Upper(a) != "" && Symbols.Upper(b) != "" && Symbols.Upper(a) != Symbols.Upper(b)
    {
      var ab := Pair(Symbols.Upper(a), Symbols.Upper(b));
      if ab in pairs {
        assert Swapped(ab) !in pairs;
      } else if Swapped(ab) in pairs {
        assert Swapped(Swapped(ab)) == ab;
      }
    }
  }

  // ---- One pair ----

  predicate Positive(v: real) { v > 0.0 }

  /** How timestamps parse, what the power operator yields for a square root, and the settings. */
  datatype Engine = Engine(clock: Aligner.Clock, root: real -> real, window: int, minCoverage: int)
  {
    ghost predicate Sound() {
      forall v {:trigger Positive(v)} :: Positive(v) ==> Pearson.IsRoot(root(v), v)
    }

    function RootOf(xs: seq<real>, ys: seq<real>): real {
      if Pearson.Defined(xs, ys) then root(Pearson.Var(xs) * Pearson.Var(ys)) else 0.0
    }

    lemma RootIsRoot(xs: seq<real>, ys: seq<real>)
      requires Sound()
      ensures Pearson.Defined(xs, ys) ==> Pearson.IsRoot(RootOf(xs, ys), Pearson.Var(xs) * Pearson.Var(ys))
    {
      if Pearson.Defined(xs, ys) {
        Reals.PositiveProduct(Pearson.Var(xs), Pearson.Var(ys), Pearson.Var(xs) * Pearson.Var(ys));
        assert Positive(Pearson.Var(xs) * Pearson.Var(ys));
      }
    }

    /** `_pearson` with the engine's square root. */
    function Correlate(xs: seq<real>, ys: seq<real>): Option<real>
      requires Sound()
    {
      RootIsRoot(xs, ys);
      Pearson.Coefficient(xs, ys, RootOf(xs, ys))
    }
  }

  /** The candles a refresh reads for one timeframe. */
  datatype Feed = Feed(history: map<Key, seq<Candle>>, maxBars: int, timeframe: string, bars: int)
  {
    ghost predicate Ok() {
      maxBars < 0 ==> history == map[]
    }

    ghost function Of(symbol: string): seq<Candle>
      requires Ok()
    {
      Reading(history, maxBars, KeyOf(symbol, timeframe), Some(bars))
    }
  }

  ghost function Joined(p: Pair, f: Feed, e: Engine): Option<Aligner.Alignment>
    requires f.Ok()
  {
    Aligner.Aligned(Aligner.CloseMap(f.Of(p.a), e.clock), Aligner.CloseMap(f.Of(p.b), e.clock))
  }

  ghost function Computed(p: Pair, f: Feed, e: Engine): PairValue
    requires f.Ok() && e.Sound()
  {
    match Joined(p, f, e)
    case None => PairValue(p, None, 0, 0.0, false)
    case Some(x) => PairValue(p, e.Correlate(x.returnsA, x.returnsB), x.count, x.coverage, x.count >= e.minCoverage)
  }

  /** How a pair is measured. */
  type Measure = Pair -> PairValue

  ghost function Measuring(f: Feed, e: Engine): Measure
    requires f.Ok() && e.Sound()
  {
    p => Computed(p, f, e)
  }

  /** The same measurement, whichever symbol is named first. */
  predicate SameMeasure(v: PairValue, w: PairValue) {
    v.coefficient == w.coefficient && v.bars == w.bars && v.coverage == w.coverage && v.coverageOk == w.coverageOk
  }

  lemma CorrelateSwaps(xs: seq<real>, ys: seq<real>, e: Engine)
    requires e.Sound()
    ensures e.Correlate(xs, ys) == e.Correlate(ys, xs)
  {
    e.RootIsRoot(xs, ys);
    assert Pearson.Defined(xs, ys) == Pearson.Defined(ys, xs);
    if Pearson.Defined(xs, ys) {
      assert Pearson.Var(xs) * Pearson.Var(ys) == Pearson.Var(ys) * Pearson.Var(xs);
    }
    Pearson.CoefficientIsSymmetric(xs, ys, e.RootOf(xs, ys));
  }

  /** Measuring a pair the other way round gives the same coefficient, bars and coverage. */
  lemma ComputedSwaps(p: Pair, f: Feed, e: Engine)
    requires f.Ok() && e.Sound()
    ensures SameMeasure(Computed(p, f, e), Computed(Swapped(p), f, e))
  {
    Aligner.AlignmentSwaps(Aligner.CloseMap(f.Of(p.a), e.clock), Aligner.CloseMap(f.Of(p.b), e.clock));
    if Joined(p, f, e).Some? {
      var x := Joined(p, f, e).value;
      CorrelateSwaps(x.returnsA, x.returnsB, e);
    }
  }

  lemma CorrelateInRange(xs: seq<real>, ys: seq<real>, e: Engine)
    requires e.Sound()
    ensures e.Correlate(xs, ys).Some? ==> -1.0 <= e.Correlate(xs, ys).value <= 1.0
  {
    e.RootIsRoot(xs, ys);
    if Pearson.Defined(xs, ys) { Pearson.ClampIsIdle(xs, ys, e.RootOf(xs, ys)); }
  }

  /** A coefficient lies between minus one and one; the pair has at least three shared bars. */
  lemma ComputedInRange(p: Pair, f: Feed, e: Engine)
    requires f.Ok() && e.Sound()
    ensures var v := Computed(p, f, e);
      v.coefficient.Some? ==> -1.0 <= v.coefficient.value <= 1.0 && v.bars >= 3
  {
    if Joined(p, f, e).Some? {
      CorrelateInRange(Joined(p, f, e).value.returnsA, Joined(p, f, e).value.returnsB, e);
    }
  }

  /** The epochs at which both symbols of a pair have a usable close. */
  ghost function Shared(p: Pair, f: Feed, e: Engine): set<int>
    requires f.Ok()
  {
    Aligner.CloseMap(f.Of(p.a), e.clock).Keys * Aligner.CloseMap(f.Of(p.b), e.clock).Keys
  }

  lemma SharedSwaps(p: Pair, f: Feed, e: Engine)
    requires f.Ok()
    ensures Shared(Swapped(p), f, e) == Shared(p, f, e)
  {
  }

  /** The bars of a pair are its shared epochs, if those are at least three, and it is covered
      exactly if they are also as many as the settings demand. */
  lemma CoveredIff(p: Pair, f: Feed, e: Engine)
    requires f.Ok() && e.Sound()
    ensures Computed(p, f, e).bars == (if |Shared(p, f, e)| >= 3 then |Shared(p, f, e)| else 0)
    ensures Computed(p, f, e).coverageOk <==> |Shared(p, f, e)| >= 3 && |Shared(p, f, e)| >= e.minCoverage
  {
    assert Joined(p, f, e).Some? <==> |Shared(p, f, e)| >= 3;
    assert Joined(p, f, e).Some? ==> Joined(p, f, e).value.count == |Shared(p, f, e)|;
  }

  lemma NoCorrelateIff(xs: seq<real>, ys: seq<real>, e: Engine)
    requires e.Sound()
    ensures e.Correlate(xs, ys) == None <==>
      |xs| < 2 || |ys| != |xs| || Pearson.Constant(xs) || Pearson.Constant(ys)
  {
    e.RootIsRoot(xs, ys);
    Pearson.NoneIff(xs, ys, e.RootOf(xs, ys));
  }

  /** A pair has a coefficient exactly if it shares three epochs and neither return series is
      constant. */
  lemma HasCoefficientIff(p: Pair, f: Feed, e: Engine)
    requires f.Ok() && e.Sound()
    ensures Computed(p, f, e).coefficient.Some? <==>
      && |Shared(p, f, e)| >= 3
      && !Pearson.Constant(Joined(p, f, e).value.returnsA) && !Pearson.Constant(Joined(p, f, e).value.returnsB)
  {
    var a, b := Aligner.CloseMap(f.Of(p.a), e.clock), Aligner.CloseMap(f.Of(p.b), e.clock);
    Aligner.AlignmentIsFaithful(a, b);
    if |Shared(p, f, e)| >= 3 {
      var x := Joined(p, f, e).value;
      NoCorrelateIff(x.returnsA, x.returnsB, e);
    }
  }

  // ---- The pairs of a list ----

  function Row(a: string, rest: seq<string>): (r: seq<Pair>)
    ensures |r| == |rest| && forall k :: 0 <= k < |r| ==> r[k] == Pair(a, rest[k])
  {
    seq(|rest|, k requires 0 <= k < |rest| => Pair(a, rest[k]))
  }

  /** The keys of the matrix in insertion order. */
  function PairsOf(symbols: seq<string>): seq<Pair> {
    if symbols == [] then [] else Row(symbols[0], symbols[1..]) + PairsOf(symbols[1..])
  }

  /** The keys of the matrix are the pairs of an earlier and a later symbol of the list. */
  lemma {:induction false} PairIsOrdered(symbols: seq<string>, p: Pair)
    ensures p in PairsOf(symbols) <==> exists i, j :: 0 <= i < j < |symbols| && p == Pair(symbols[i], symbols[j])
  {
    if symbols != [] {
      var rest := symbols[1..];
      PairIsOrdered(rest, p);
      var row := Row(symbols[0], rest);
      if p in row {
        var k :| 0 <= k < |row| && row[k] == p;
        assert p == Pair(symbols[0], symbols[k + 1]);
      }
      if p in PairsOf(rest) {
        var i, j :| 0 <= i < j < |rest| && p == Pair(rest[i], rest[j]);
        assert p == Pair(symbols[i + 1], symbols[j + 1]);
      }
      if i, j :| 0 <= i < j < |symbols| && p == Pair(symbols[i], symbols[j]) {
        if i == 0 {
          assert row[j - 1] == p;
        } else {
          assert p == Pair(rest[i - 1], rest[j - 1]);
        }
      }
    }
  }

  lemma RestDistinct(symbols: seq<string>)
    requires PySeq.Distinct(symbols) && symbols != []
    ensures PySeq.Distinct(symbols[1..]) && symbols[0] !in symbols[1..]
  {
  }

  lemma DistinctAppend<T>(a: seq<T>, b: seq<T>)
    requires PySeq.Distinct(a) && PySeq.Distinct(b) && forall x :: x in a ==> x !in b
    ensures PySeq.Distinct(a + b)
  {
    forall i, j | 0 <= i < j < |a + b| ensures (a + b)[i] != (a + b)[j] {
      if i < |a| <= j { assert a[i] in a && b[j - |a|] in b; }
    }
  }

  lemma NamesOfPair(symbols: seq<string>, p: Pair)
    requires p in PairsOf(symbols)
    ensures p.a in symbols && p.b in symbols
    ensures PySeq.Distinct(symbols) ==> p.a != p.b
  {
    PairIsOrdered(symbols, p);
  }

  lemma {:induction false} PairsAreDistinct(symbols: seq<string>)
    requires PySeq.Distinct(symbols)
    ensures PySeq.Distinct(PairsOf(symbols))
  {
    if symbols != [] {
      RestDistinct(symbols);
      PairsAreDistinct(symbols[1..]);
      forall p | p in Row(symbols[0], symbols[1..]) ensures p !in PairsOf(symbols[1..]) {
        if p in PairsOf(symbols[1..]) { NamesOfPair(symbols[1..], p); }
      }
      DistinctAppend(Row(symbols[0], symbols[1..]), PairsOf(symbols[1..]));
    }
  }

  lemma {:induction false} PairsCount(symbols: seq<string>)
    ensures 2 * |PairsOf(symbols)| == |symbols| * (|symbols| - 1)
  {
    if symbols != [] {
      PairsCount(symbols[1..]);
      var n := |symbols|;
      assert (n - 1) * (n - 2) + 2 * (n - 1) == n * (n - 1);
    }
  }

  /** Of two distinct symbols exactly one ordering is a key; of a symbol with itself, none. */
  lemma OneOrderingEach(symbols: seq<string>, a: string, b: string)
    requires PySeq.Distinct(symbols)
    ensures Pair(a, b) in PairsOf(symbols) || Pair(b, a) in PairsOf(symbols) <==> a in symbols && b in symbols && a != b
    ensures !(Pair(a, b) in PairsOf(symbols) && Pair(b, a) in PairsOf(symbols))
  {
    PairIsOrdered(symbols, Pair(a, b));
    PairIsOrdered(symbols, Pair(b, a));
    if a in symbols && b in symbols && a != b {
      var i :| 0 <= i < |symbols| && symbols[i] == a;
      var j :| 0 <= j < |symbols| && symbols[j] == b;
    }
  }

  // ---- The matrix ----

  /** The smallest positive bar count, or 0 when there is none. */
  function MinBars(vs: seq<PairValue>): (m: nat)
    ensures m == 0 <==> forall v :: v in vs ==> v.bars == 0
    ensures m > 0 ==> exists v :: v in vs && v.bars == m
    ensures forall v :: v in vs && v.bars > 0 ==> m <= v.bars
  {
    if vs == [] then 0
    else
      var m := MinBars(vs[..|vs| - 1]);
      var v := vs[|vs| - 1];
      assert vs == vs[..|vs| - 1] + [v];
      if v.bars > 0 && (m == 0 || v.bars < m) then v.bars else m
  }

  /** Every key listed so far holds its measurement, and nothing else is stored. */
  ghost predicate Filled(order: seq<Pair>, pairs: map<Pair, PairValue>, measure: Measure) {
    pairs.Keys == PySeq.Elements(order) && forall p :: p in pairs ==> pairs[p] == measure(p)
  }

  ghost predicate IsMatrix(m: MatrixSnapshot, symbols: seq<string>, measure: Measure) {
    && m.symbols == symbols && m.order == PairsOf(symbols)
    && Filled(m.order, m.pairs, measure)
    && m.Listed()
    && m.minPairBars == MinBars(PySeq.Values(m.pairs, m.order))
    && (m.allCoverageOk <==> m.order != [] && forall p :: p in m.pairs ==> m.pairs[p].coverageOk)
  }

  lemma PairsAreListed(symbols: seq<string>, pairs: map<Pair, PairValue>, order: seq<Pair>)
    requires pairs.Keys == PySeq.Elements(order)
    ensures |pairs| == |pairs.Keys|
    ensures forall p :: p in pairs <==> p in order
  {
    assert forall p :: p in pairs <==> p in PySeq.Elements(order);
  }

  /** A matrix of n distinct symbols has n(n-1)/2 entries, one for each unordered pair. */
  lemma MatrixIsUpperTriangle(m: MatrixSnapshot, symbols: seq<string>, measure: Measure)
    requires IsMatrix(m, symbols, measure) && PySeq.Distinct(symbols)
    ensures 2 * |m.pairs| == |symbols| * (|symbols| - 1)
    ensures forall a, b :: Pair(a, b) in m.pairs || Pair(b, a) in m.pairs <==> a in symbols && b in symbols && a != b
    ensures forall a, b :: !(Pair(a, b) in m.pairs && Pair(b, a) in m.pairs)
  {
    PairsAreDistinct(symbols);
    PySeq.DistinctLength(m.order);
    PairsCount(symbols);
    PairsAreListed(symbols, m.pairs, m.order);
    forall a, b
      ensures Pair(a, b) in m.pairs || Pair(b, a) in m.pairs <==> a in symbols && b in symbols && a != b
      ensures !(Pair(a, b) in m.pairs && Pair(b, a) in m.pairs)
    {
      OneOrderingEach(symbols, a, b);
    }
  }

  lemma MatrixIsTriangular(m: MatrixSnapshot, symbols: seq<string>, measure: Measure)
    requires IsMatrix(m, symbols, measure) && CleanList(symbols)
    ensures m.Triangular() && m.Listed()
  {
    PairsAreListed(symbols, m.pairs, m.order);
    forall p | p in m.pairs ensures Swapped(p) !in m.pairs && p.a != "" && p.b != "" {
      OneOrderingEach(symbols, p.a, p.b);
      NamesOfPair(symbols, p);
      CleanIsNotBlank(symbols, p.a);
      CleanIsNotBlank(symbols, p.b);
    }
  }

  lemma CleanIsNotBlank(symbols: seq<string>, x: string)
    requires CleanList(symbols) && x in symbols
    ensures x != ""
  {
    var i :| 0 <= i < |symbols| && symbols[i] == x;
    TradableIsItself(symbols[i]);
  }

  /** A lookup finds a value exactly for two different followed symbols, the same value either
      way round, and it is what measuring that pair in either order gives. */
  lemma LookupIgnoresKeyOrder(m: MatrixSnapshot, symbols: seq<string>, f: Feed, e: Engine, a: string, b: string)
    requires f.Ok() && e.Sound() && IsMatrix(m, symbols, Measuring(f, e)) && PySeq.Distinct(symbols)
    ensures m.GetPair(a, b) == m.GetPair(b, a)
    ensures m.GetPair(a, b).Some? <==>
      Symbols.Upper(a) in symbols && Symbols.Upper(b) in symbols && Symbols.Upper(a) != Symbols.Upper(b)
    ensures m.GetPair(a, b).Some? ==>
      SameMeasure(m.GetPair(a, b).value, Computed(Pair(Symbols.Upper(a), Symbols.Upper(b)), f, e))
  {
    var ab := Pair(Symbols.Upper(a), Symbols.Upper(b));
    OneOrderingEach(symbols, ab.a, ab.b);
    PairsAreListed(symbols, m.pairs, m.order);
    ComputedSwaps(ab, f, e);
  }

  /** What a lookup finds is covered exactly if the two symbols share enough epochs. */
  lemma LookupCoveredIff(m: MatrixSnapshot, symbols: seq<string>, f: Feed, e: Engine, a: string, b: string)
    requires f.Ok() && e.Sound() && IsMatrix(m, symbols, Measuring(f, e)) && PySeq.Distinct(symbols)
    requires m.GetPair(a, b).Some?
    ensures var n := |Shared(Pair(Symbols.Upper(a), Symbols.Upper(b)), f, e)|;
      && m.GetPair(a, b).value.bars == (if n >= 3 then n else 0)
      && (m.GetPair(a, b).value.coverageOk <==> n >= 3 && n >= e.minCoverage)
  {
    LookupIgnoresKeyOrder(m, symbols, f, e, a, b);
    CoveredIff(Pair(Symbols.Upper(a), Symbols.Upper(b)), f, e);
  }

  predicate Enough(n: nat, e: Engine) { n >= 3 && n >= e.minCoverage }

  /** A whole matrix is covered exactly if there are two symbols at least and every two of them
      share enough epochs. */
  lemma AllCoveredIff(m: MatrixSnapshot, symbols: seq<string>, f: Feed, e: Engine)
    requires f.Ok() && e.Sound() && IsMatrix(m, symbols, Measuring(f, e)) && PySeq.Distinct(symbols)
    ensures m.allCoverageOk <==>
      |symbols| >= 2 && forall i, j :: 0 <= i < j < |symbols| ==> Enough(|Shared(Pair(symbols[i], symbols[j]), f, e)|, e)
  {
    PairsAreListed(symbols, m.pairs, m.order);
    PairsCount(symbols);
    forall p | p in m.pairs ensures m.pairs[p].coverageOk <==> Enough(|Shared(p, f, e)|, e) { CoveredIff(p, f, e); }
    forall i, j | 0 <= i < j < |symbols| ensures Pair(symbols[i], symbols[j]) in m.pairs {
      PairIsOrdered(symbols, Pair(symbols[i], symbols[j]));
    }
    forall p | p in m.pairs ensures exists i, j :: 0 <= i < j < |symbols| && p == Pair(symbols[i], symbols[j]) {
      PairIsOrdered(symbols, p);
    }
    if |symbols| < 2 { assert m.order == []; } else { assert Pair(symbols[0], symbols[1]) in m.pairs; }
  }

  /** Listing the same symbols in another order changes no measurement that can be looked up. */
  lemma MatrixIgnoresListOrder(m: MatrixSnapshot, n: MatrixSnapshot, s: seq<string>, t: seq<string>, f: Feed, e: Engine,
                               a: string, b: string)
    requires f.Ok() && e.Sound() && IsMatrix(m, s, Measuring(f, e)) && IsMatrix(n, t, Measuring(f, e))
    requires PySeq.Distinct(s) && PySeq.Distinct(t) && PySeq.Elements(s) == PySeq.Elements(t)
    ensures m.GetPair(a, b).Some? <==> n.GetPair(a, b).Some?
    ensures m.GetPair(a, b).Some? ==> SameMeasure(m.GetPair(a, b).value, n.GetPair(a, b).value)
  {
    LookupIgnoresKeyOrder(m, s, f, e, a, b);
    LookupIgnoresKeyOrder(n, t, f, e, a, b);
    assert forall x :: x in s <==> x in PySeq.Elements(s);
    assert forall x :: x in t <==> x in PySeq.Elements(t);
  }

  // ---- Relations of one symbol ----

  function Involving(order: seq<Pair>, x: string): (r: seq<Pair>)
    ensures forall p :: p in r ==> p in order
  {
    if order == [] then []
    else
      var p := order[|order| - 1];
      Involving(order[..|order| - 1], x) + (if p.a == x || p.b == x then [p] else [])
  }

  lemma {:induction false} InvolvingAppend(a: seq<Pair>, b: seq<Pair>, x: string)
    ensures Involving(a + b, x) == Involving(a, x) + Involving(b, x)
  {
    if b == [] {
      assert a + b == a;
    } else {
      InvolvingAppend(a, b[..|b| - 1], x);
      assert (a + b)[..|a + b| - 1] == a + b[..|b| - 1];
    }
  }

  function Without(symbols: seq<string>, x: string): seq<string> {
    if symbols == [] then [] else (if symbols[0] == x then [] else [symbols[0]]) + Without(symbols[1..], x)
  }

  function Partner(p: Pair, x: string): string { if p.a == x then p.b else p.a }

  function Partners(ps: seq<Pair>, x: string): (r: seq<string>)
    ensures |r| == |ps| && forall k :: 0 <= k < |r| ==> r[k] == Partner(ps[k], x)
  {
    seq(|ps|, k requires 0 <= k < |ps| => Partner(ps[k], x))
  }

  lemma {:induction false} NoneInvolving(ps: seq<Pair>, x: string)
    requires forall p :: p in ps ==> p.a != x && p.b != x
    ensures Involving(ps, x) == []
  {
    if ps != [] {
      NoneInvolving(ps[..|ps| - 1], x);
      assert ps[|ps| - 1] in ps;
    }
  }

  lemma {:induction false} AllInvolving(ps: seq<Pair>, x: string)
    requires forall p :: p in ps ==> p.a == x
    ensures Involving(ps, x) == ps
  {
    if ps != [] {
      AllInvolving(ps[..|ps| - 1], x);
      assert ps[|ps| - 1] in ps;
      assert ps == ps[..|ps| - 1] + [ps[|ps| - 1]];
    }
  }

  /** The one key of a row that names a later symbol. */
  lemma {:induction false} OneInvolving(a: string, rest: seq<string>, x: string)
    requires PySeq.Distinct(rest) && a != x
    ensures Involving(Row(a, rest), x) == if x in rest then [Pair(a, x)] else []
  {
    if rest != [] {
      var init := rest[..|rest| - 1];
      OneInvolving(a, init, x);
      assert Row(a, rest)[..|rest| - 1] == Row(a, init);
      assert rest == init + [rest[|rest| - 1]];
    }
  }

  lemma {:induction false} WithoutAbsent(symbols: seq<string>, x: string)
    requires x !in symbols
    ensures Without(symbols, x) == symbols
  {
    if symbols != [] { WithoutAbsent(symbols[1..], x); }
  }

  lemma InvolvingFirst(x: string, rest: seq<string>)
    requires PySeq.Distinct(rest) && x !in rest
    ensures Involving(Row(x, rest) + PairsOf(rest), x) == Row(x, rest)
  {
    InvolvingAppend(Row(x, rest), PairsOf(rest), x);
    AllInvolving(Row(x, rest), x);
    forall p | p in PairsOf(rest) ensures p.a != x && p.b != x { NamesOfPair(rest, p); }
    NoneInvolving(PairsOf(rest), x);
  }

  lemma InvolvingLater(a: string, rest: seq<string>, x: string)
    requires PySeq.Distinct(rest) && x in rest && a != x
    ensures Involving(Row(a, rest) + PairsOf(rest), x) == [Pair(a, x)] + Involving(PairsOf(rest), x)
  {
    InvolvingAppend(Row(a, rest), PairsOf(rest), x);
    OneInvolving(a, rest, x);
  }

  lemma PartnersOfRow(x: string, rest: seq<string>)
    ensures Partners(Row(x, rest), x) == rest
  {
  }

  lemma PartnersPrepend(p: Pair, ps: seq<Pair>, x: string)
    ensures Partners([p] + ps, x) == [Partner(p, x)] + Partners(ps, x)
  {
  }

  /** The keys naming x, taken in order, name every other symbol once, in list order. */
  lemma {:induction false} PartnersAreTheOthers(symbols: seq<string>, x: string)
    requires PySeq.Distinct(symbols) && x in symbols
    ensures Partners(Involving(PairsOf(symbols), x), x) == Without(symbols, x)
  {
    var a, rest := symbols[0], symbols[1..];
    RestDistinct(symbols);
    if a == x {
      InvolvingFirst(x, rest);
      PartnersOfRow(x, rest);
      WithoutAbsent(rest, x);
    } else {
      InvolvingLater(a, rest, x);
      PartnersAreTheOthers(rest, x);
      PartnersPrepend(Pair(a, x), Involving(PairsOf(rest), x), x);
    }
  }

  /** The stored values naming x, in insertion order. */
  function Relations(m: MatrixSnapshot, x: string): seq<PairValue>
    requires m.Listed()
  {
    PySeq.Values(m.pairs, Involving(m.order, x))
  }

  lemma RelationOf(m: MatrixSnapshot, x: string, p: Pair)
    requires m.Listed() && p in m.order && (p.a == x || p.b == x) && Symbols.Upper(Partner(p, x)) == Partner(p, x)
    requires Symbols.Upper(x) == x && !(Pair(p.a, p.b) in m.pairs && Pair(p.b, p.a) in m.pairs)
    ensures m.GetPair(x, Partner(p, x)) == Some(m.pairs[p])
  {
  }

  lemma {:induction false} InvolvingNames(order: seq<Pair>, x: string)
    ensures forall p :: p in Involving(order, x) ==> p.a == x || p.b == x
  {
    if order != [] { InvolvingNames(order[..|order| - 1], x); }
  }

  lemma {:induction false} WithoutLength(symbols: seq<string>, x: string)
    requires PySeq.Distinct(symbols)
    ensures |Without(symbols, x)| == |symbols| - (if x in symbols then 1 else 0)
  {
    if symbols != [] {
      WithoutLength(symbols[1..], x);
      assert symbols == [symbols[0]] + symbols[1..];
    }
  }

  /** A followed symbol has one relation with every other followed symbol, in list order, and
      it is what looking up that pair gives. */
  lemma RelationsAreLookups(m: MatrixSnapshot, symbols: seq<string>, measure: Measure, x: string)
    requires IsMatrix(m, symbols, measure) && CleanList(symbols) && x in symbols
    ensures |Relations(m, x)| == |Without(symbols, x)| == |symbols| - 1
    ensures forall k :: 0 <= k < |symbols| - 1 ==>
      m.GetPair(x, Without(symbols, x)[k]) == Some(Relations(m, x)[k])
  {
    var ps := Involving(m.order, x);
    PartnersAreTheOthers(symbols, x);
    WithoutLength(symbols, x);
    CleanIsUpper(symbols);
    InvolvingNames(m.order, x);
    forall k | 0 <= k < |ps| ensures m.GetPair(x, Partners(ps, x)[k]) == Some(Relations(m, x)[k]) {
      assert ps[k] in ps;
      NamesOfPair(symbols, ps[k]);
      OneOrderingEach(symbols, ps[k].a, ps[k].b);
      PairsAreListed(symbols, m.pairs, m.order);
      RelationOf(m, x, ps[k]);
    }
  }

  // ---- Filling the matrix ----

  ghost function FeedOf(market: MarketStateService, e: Engine, timeframe: string): (f: Feed)
    requires market.Valid()
    reads market
    ensures f.Ok()
  {
    Feed(market.history, market.maxBars, timeframe, e.window)
  }

  /** A pair is measured on the newest candles of either symbol in the timeframe, as many as the
      window of the settings and the market hold. */
  lemma FeedIsNewest(market: MarketStateService, e: Engine, timeframe: string, symbol: string, n: nat)
    requires market.Valid() && 0 < n && KeyOf(symbol, timeframe) in market.history
    requires n <= e.window && n <= market.maxBars && (n == e.window || n == market.maxBars)
    ensures var r, h := FeedOf(market, e, timeframe).Of(symbol), market.history[KeyOf(symbol, timeframe)];
      && (forall i, j :: 0 <= i < j < |r| ==> Before(r[i].stamp, r[j].stamp))
      && (forall c :: c in r ==> IsLastFor(c, h))
      && |r| == (if n < |Stamps(h)| then n else |Stamps(h)|)
      && (forall s, t :: s in Stamps(h) - Stamps(r) && t in Stamps(r) ==> Before(s, t))
  {
    ReadingIsNewest(market.history, market.maxBars, KeyOf(symbol, timeframe), Some(e.window), n);
  }

  ghost predicate MeasuresNow(measure: Measure, market: MarketStateService, e: Engine, timeframe: string)
    reads market
  {
    market.Valid() && e.Sound() && measure == Measuring(FeedOf(market, e, timeframe), e)
  }

  lemma MeasureIs(f: Feed, e: Engine, p: Pair)
    requires f.Ok() && e.Sound()
    ensures Measuring(f, e)(p) == Computed(p, f, e)
  {
  }

  /** `_compute_pair`. */
  method ComputePair(market: MarketStateService, e: Engine, p: Pair, timeframe: string) returns (v: PairValue)
    requires market.Valid() && e.Sound()
    ensures v == Computed(p, FeedOf(market, e, timeframe), e)
  {
    var candlesA := market.GetCandles(p.a, timeframe, Some(e.window));
    var candlesB := market.GetCandles(p.b, timeframe, Some(e.window));
    var alignment := Aligner.AlignAndReturns(candlesA, candlesB, e.clock);
    if alignment.None? { return PairValue(p, None, 0, 0.0, false); }
    var x := alignment.value;
    var coefficient := e.Correlate(x.returnsA, x.returnsB);
    v := PairValue(p, coefficient, x.count, x.coverage, x.count >= e.minCoverage);
  }

  /** `[s.upper() for s in symbols]`. */
  function Uppered(symbols: seq<string>): (r: seq<string>)
    ensures |r| == |symbols| && forall i :: 0 <= i < |r| ==> r[i] == Symbols.Upper(symbols[i])
  {
    seq(|symbols|, i requires 0 <= i < |symbols| => Symbols.Upper(symbols[i]))
  }

  predicate IsCapital(s: string) {
    Symbols.Upper(s) == s
  }

  ghost predicate AllCapital(symbols: seq<string>) {
    forall i {:trigger IsCapital(symbols[i])} :: 0 <= i < |symbols| ==> IsCapital(symbols[i])
  }

  lemma LaterAreCapital(symbols: seq<string>, i: nat, later: seq<string>)
    requires AllCapital(symbols) && i <= |symbols| && later == symbols[i..]
    ensures AllCapital(later)
  {
    forall k | 0 <= k < |later| ensures IsCapital(later[k]) { assert IsCapital(symbols[i + k]); }
  }

  lemma CleanIsUpper(symbols: seq<string>)
    requires CleanList(symbols)
    ensures Uppered(symbols) == symbols && AllCapital(symbols)
    ensures forall i :: 0 <= i < |symbols| ==> Symbols.Upper(symbols[i]) == symbols[i]
  {
    forall i | 0 <= i < |symbols| ensures Symbols.Upper(symbols[i]) == symbols[i] {
      Symbols.UpperIdempotent(Symbols.Strip(symbols[i]));
    }
  }

  /** All keys in order, as the walk sees them within one row: those stored, those of symbol a
      with the rest of the list, and those of later rows. */
  ghost predicate Walking(all: seq<Pair>, order: seq<Pair>, a: string, rest: seq<string>, later: seq<Pair>) {
    all == order + Row(a, rest) + later
  }

  lemma PairsHead(symbols: seq<string>, a: string, others: seq<string>)
    requires symbols != [] && a == symbols[0] && others == symbols[1..]
    ensures PairsOf(symbols) == Row(a, others) + PairsOf(others)
  {
  }

  lemma Regroup<T>(a: seq<T>, m: seq<T>, b: seq<T>)
    ensures a + (m + b) == a + m + b
  {
  }

  lemma RowStarts(all: seq<Pair>, order: seq<Pair>, symbols: seq<string>, a: string, others: seq<string>)
    requires symbols != [] && a == symbols[0] && others == symbols[1..] && all == order + PairsOf(symbols)
    ensures Walking(all, order, a, others, PairsOf(others))
  {
    PairsHead(symbols, a, others);
    Regroup(order, Row(a, others), PairsOf(others));
  }

  lemma RowEnds(all: seq<Pair>, order: seq<Pair>, a: string, later: seq<Pair>)
    requires Walking(all, order, a, [], later)
    ensures all == order + later
  {
    EmptyMiddle(order, Row(a, []), later);
  }

  lemma EmptyMiddle<T>(a: seq<T>, m: seq<T>, b: seq<T>)
    requires |m| == 0
    ensures a + m + b == a + b
  {
  }

  lemma RowAhead(a: string, rest: seq<string>, later: seq<string>)
    requires rest != [] && later == rest[1..]
    ensures Row(a, rest) == [Pair(a, rest[0])] + Row(a, later)
  {
  }

  lemma ShiftOne<T>(a: seq<T>, m: seq<T>, b: seq<T>, x: T, n: seq<T>)
    requires m == [x] + n
    ensures a + m + b == (a + [x]) + n + b
    ensures a + m + b == a + [x] + (n + b)
  {
  }

  lemma RowStep(all: seq<Pair>, order: seq<Pair>, a: string, rest: seq<string>, later: seq<Pair>)
    requires Walking(all, order, a, rest, later) && PySeq.Distinct(all) && rest != []
    ensures Walking(all, order + [Pair(a, rest[0])], a, rest[1..], later) && Pair(a, rest[0]) !in order
  {
    var p, row := Pair(a, rest[0]), Row(a, rest[1..]);
    RowAhead(a, rest, rest[1..]);
    ShiftOne(order, Row(a, rest), later, p, row);
    NextIsNew(order, p, row + later);
  }

  lemma NextIsNew(order: seq<Pair>, p: Pair, later: seq<Pair>)
    requires PySeq.Distinct(order + [p] + later)
    ensures p !in order
  {
    assert (order + [p] + later)[|order|] == p;
    forall k | 0 <= k < |order| ensures order[k] != p { assert (order + [p] + later)[k] == order[k]; }
  }

  lemma FilledStep(order: seq<Pair>, pairs: map<Pair, PairValue>, p: Pair, measure: Measure)
    requires Filled(order, pairs, measure)
    ensures Filled(order + [p], pairs[p := measure(p)], measure)
    ensures p in pairs <==> p in order
  {
    PySeq.ElementsAppend(order, p);
    assert p in pairs <==> p in PySeq.Elements(order);
  }

  /** The snapshot around a filled dictionary. */
  function Summarised(symbols: seq<string>, order: seq<Pair>, pairs: map<Pair, PairValue>): MatrixSnapshot
    requires pairs.Keys == PySeq.Elements(order)
  {
    PairsAreListed(symbols, pairs, order);
    MatrixSnapshot(symbols, order, pairs, MinBars(PySeq.Values(pairs, order)),
                   order != [] && forall p :: p in pairs ==> pairs[p].coverageOk)
  }

  lemma SummarisedIsMatrix(symbols: seq<string>, order: seq<Pair>, pairs: map<Pair, PairValue>, measure: Measure)
    requires order == PairsOf(symbols) && Filled(order, pairs, measure)
    ensures IsMatrix(Summarised(symbols, order, pairs), symbols, measure)
  {
    PairsAreListed(symbols, pairs, order);
  }

  /** The walk within a row, and what it has stored. */
  ghost predicate Walked(all: seq<Pair>, order: seq<Pair>, a: string, rest: seq<string>, later: seq<Pair>,
                         pairs: map<Pair, PairValue>, measure: Measure) {
    Walking(all, order, a, rest, later) && PySeq.Distinct(all) && Filled(order, pairs, measure)
  }

  /** One turn of the walk: the key is new and is the next one. */
  lemma Turn(all: seq<Pair>, order: seq<Pair>, a: string, rest: seq<string>, later: seq<Pair>,
             pairs: map<Pair, PairValue>, measure: Measure, p: Pair)
    requires Walked(all, order, a, rest, later, pairs, measure) && rest != [] && p == Pair(a, rest[0])
    ensures p !in pairs && Walked(all, order + [p], a, rest[1..], later, pairs[p := measure(p)], measure)
  {
    RowStep(all, order, a, rest, later);
    FilledStep(order, pairs, p, measure);
  }

  method MeasurePair(market: MarketStateService, e: Engine, p: Pair, timeframe: string, ghost measure: Measure)
    returns (v: PairValue)
    requires MeasuresNow(measure, market, e, timeframe)
    ensures v == measure(p)
  {
    v := ComputePair(market, e, p, timeframe);
    MeasureIs(FeedOf(market, e, timeframe), e, p);
  }

  /** The body of the nested walk: one pair is measured and stored under its key. */
  method FillPair(market: MarketStateService, e: Engine, timeframe: string, a: string, rest: seq<string>,
                  order0: seq<Pair>, pairs0: map<Pair, PairValue>,
                  ghost all: seq<Pair>, ghost later: seq<Pair>, ghost measure: Measure)
    returns (order: seq<Pair>, pairs: map<Pair, PairValue>)
    requires MeasuresNow(measure, market, e, timeframe) && rest != [] && IsCapital(a) && IsCapital(rest[0])
    requires Walked(all, order0, a, rest, later, pairs0, measure)
    ensures Walked(all, order, a, rest[1..], later, pairs, measure)
  {
    var p := Pair(Symbols.Upper(a), Symbols.Upper(rest[0]));
    Turn(all, order0, a, rest, later, pairs0, measure, p);
    var v := MeasurePair(market, e, Pair(a, rest[0]), timeframe, measure);
    order := if p in pairs0 then order0 else order0 + [p];
    pairs := pairs0[p := v];
  }

  /** One row of the nested walk: symbol a with every later one. */
  method FillRow(market: MarketStateService, e: Engine, timeframe: string, a: string, others: seq<string>,
                 order0: seq<Pair>, pairs0: map<Pair, PairValue>,
                 ghost all: seq<Pair>, ghost later: seq<Pair>, ghost measure: Measure)
    returns (order: seq<Pair>, pairs: map<Pair, PairValue>)
    requires MeasuresNow(measure, market, e, timeframe) && IsCapital(a) && AllCapital(others)
    requires Walked(all, order0, a, others, later, pairs0, measure)
    ensures Walked(all, order, a, [], later, pairs, measure)
  {
    order, pairs := order0, pairs0;
    for j := 0 to |others|
      invariant MeasuresNow(measure, market, e, timeframe)
      invariant Walked(all, order, a, others[j..], later, pairs, measure)
    {
      assert IsCapital(others[j]) && others[j..][0] == others[j] && others[j..][1..] == others[j + 1..];
      order, pairs := FillPair(market, e, timeframe, a, others[j..], order, pairs, all, later, measure);
    }
  }

  /** Row after row, then the summary. */
  method FillMatrix(market: MarketStateService, e: Engine, timeframe: string, symbols: seq<string>,
                    ghost measure: Measure)
    returns (m: MatrixSnapshot)
    requires MeasuresNow(measure, market, e, timeframe)
    requires PySeq.Distinct(symbols) && AllCapital(symbols)
    ensures IsMatrix(m, symbols, measure)
  {
    var order: seq<Pair> := [];
    var pairs: map<Pair, PairValue> := map[];
    ghost var all := PairsOf(symbols);
    PairsAreDistinct(symbols);
    for i := 0 to |symbols|
      invariant all == order + PairsOf(symbols[i..])
      invariant Filled(order, pairs, measure)
    {
      assert symbols[i..][1..] == symbols[i + 1..];
      RowStarts(all, order, symbols[i..], symbols[i], symbols[i + 1..]);
      assert IsCapital(symbols[i]);
      LaterAreCapital(symbols, i + 1, symbols[i + 1..]);
      ghost var later := PairsOf(symbols[i + 1..]);
      order, pairs := FillRow(market, e, timeframe, symbols[i], symbols[i + 1..], order, pairs, all, later, measure);
      RowEnds(all, order, symbols[i], later);
    }
    SummarisedIsMatrix(symbols, order, pairs, measure);
    m := Summarised(symbols, order, pairs);
  }

  // ---- The service ----

  predicate Holds(snapshots: map<string, MatrixSnapshot>, t: string) {
    t in snapshots
  }

  /** Every stored snapshot came from a refresh. */
  ghost predicate AllBuilt(snapshots: map<string, MatrixSnapshot>) {
    forall t {:trigger Holds(snapshots, t)} :: Holds(snapshots, t) ==> snapshots[t].Listed() && snapshots[t].Triangular()
  }

  lemma BuiltUpdate(snapshots: map<string, MatrixSnapshot>, t: string, m: MatrixSnapshot)
    requires AllBuilt(snapshots) && m.Listed() && m.Triangular()
    ensures AllBuilt(snapshots[t := m])
  {
    var after := snapshots[t := m];
    forall u | Holds(after, u) ensures after[u].Listed() && after[u].Triangular() {
      if u != t { assert Holds(snapshots, u); }
    }
  }

  class CorrelationService {
    const market: MarketStateService
    const subscriptions: SubscriptionManager
    const engine: Engine
    var snapshots: map<string, MatrixSnapshot>

    ghost predicate Valid()
      reads this, market, subscriptions
    {
      && market.Valid() && subscriptions.Valid() && engine.Sound()
      && AllBuilt(snapshots)
    }

    /** The settings are raised to their floors: ten bars of window, five of coverage. */
    constructor (market: MarketStateService, subscriptions: SubscriptionManager, clock: Aligner.Clock, root: real -> real,
                 windowBars: int, minCoverageBars: int)
      requires market.Valid() && subscriptions.Valid() && Engine(clock, root, 0, 0).Sound()
      ensures Valid() && snapshots == map[]
      ensures engine.clock == clock && engine.root == root
      ensures engine.window >= 10 && engine.window >= windowBars && (engine.window == 10 || engine.window == windowBars)
      ensures engine.minCoverage >= 5 && engine.minCoverage >= minCoverageBars
      ensures engine.minCoverage == 5 || engine.minCoverage == minCoverageBars
    {
      this.market, this.subscriptions, snapshots := market, subscriptions, map[];
      engine := Engine(clock, root, if windowBars > 10 then windowBars else 10,
                       if minCoverageBars > 5 then minCoverageBars else 5);
    }

    /** What refreshing a timeframe now would measure for each pair. */
    ghost function Measured(timeframe: string): Measure
      requires market.Valid() && engine.Sound()
      reads market
    {
      Measuring(FeedOf(market, engine, timeframe), engine)
    }

    /** `_refresh_timeframe`: the nested walk over the followed symbols fills the matrix. */
    method RefreshTimeframe(timeframe: string) returns (m: MatrixSnapshot)
      requires Valid()
      ensures IsMatrix(m, subscriptions.subscribedUniverse, Measured(timeframe))
    {
      var symbols := Uppered(subscriptions.subscribedUniverse);
      CleanIsUpper(subscriptions.subscribedUniverse);
      m := FillMatrix(market, engine, timeframe, symbols, Measured(timeframe));
    }

    /** One turn of the refresh loop: the whole snapshot of a timeframe is replaced. */
    method Refresh(timeframe: string)
      requires Valid()
      modifies this`snapshots
      ensures Valid() && timeframe in snapshots
      ensures snapshots == old(snapshots)[timeframe := snapshots[timeframe]]
      ensures IsMatrix(snapshots[timeframe], old(subscriptions.subscribedUniverse), old(Measured(timeframe)))
    {
      var m := RefreshTimeframe(timeframe);
      MatrixIsTriangular(m, subscriptions.subscribedUniverse, Measured(timeframe));
      BuiltUpdate(snapshots, timeframe, m);
      snapshots := snapshots[timeframe := m];
    }

    /** `get_pair`: nothing before the first refresh. */
    function GetPair(a: string, b: string, timeframe: string): (r: Option<PairValue>)
      reads this
    {
      var t := Symbols.Upper(timeframe);
      if t in snapshots then snapshots[t].GetPair(a, b) else None
    }

    /** `get_exposure_relations`: the stored values that name a symbol, in insertion order. */
    method GetExposureRelations(symbol: string, timeframe: string) returns (r: seq<PairValue>)
      requires Valid()
      ensures var t := Symbols.Upper(timeframe);
        r == if Holds(snapshots, t) then Relations(snapshots[t], Symbols.Upper(symbol)) else []
    {
      var t := Symbols.Upper(timeframe);
      if t !in snapshots { return []; }
      assert Holds(snapshots, t);
      var m, x := snapshots[t], Symbols.Upper(symbol);
      r := [];
      for k := 0 to |m.order|
        invariant forall i :: 0 <= i < |Involving(m.order[..k], x)| ==> Involving(m.order[..k], x)[i] in m.pairs
        invariant r == PySeq.Values(m.pairs, Involving(m.order[..k], x))
      {
        assert m.order[..k + 1][..k] == m.order[..k];
        var p := m.order[k];
        if p.a == x || p.b == x { r := r + [m.pairs[p]]; }
      }
      assert m.order[..|m.order|] == m.order;
    }
  }
}
