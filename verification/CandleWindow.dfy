/** The bounded candle window kept per symbol and timeframe. */
module CandleWindow {
  import PySeq

  /** A candle, with its stripped timestamp text; a blank timestamp means it is ignored. */
  datatype Candle = Candle(stamp: string, close: real)

  // ---- The order Python sorts timestamps by ----

  predicate Before(a: string, b: string) {
    b != "" && (a == "" || a[0] < b[0] || (a[0] == b[0] && Before(a[1..], b[1..])))
  }

  /** Where two texts first differ the smaller character comes first, and a text comes after its
      own beginnings. */
  lemma {:induction false} BeforeIs(a: string, b: string, i: nat)
    requires i <= |a| && i <= |b| && a[..i] == b[..i]
    ensures i == |a| < |b| ==> Before(a, b)
    ensures i < |a| && i < |b| && a[i] != b[i] ==> (Before(a, b) <==> a[i] < b[i])
  {
    if i > 0 {
      assert a[0] == a[..i][0] == b[..i][0] == b[0];
      assert a[1..][..i - 1] == a[..i][1..] == b[..i][1..] == b[1..][..i - 1];
      BeforeIs(a[1..], b[1..], i - 1);
    }
  }

  lemma {:induction false} BeforeIsStrictTotal(a: string, b: string, c: string)
    ensures !Before(a, a)
    ensures Before(a, b) && Before(b, c) ==> Before(a, c)
    ensures a == b || Before(a, b) || Before(b, a)
    ensures !(Before(a, b) && Before(b, a))
  {
    var a' := if a == "" then "" else a[1..];
    var b' := if b == "" then "" else b[1..];
    var c' := if c == "" then "" else c[1..];
    if a != "" {
      BeforeIsStrictTotal(a', b', c');
      if b != "" && a[0] == b[0] && a' == b' {
        assert a == [a[0]] + a' && b == [b[0]] + b';
      }
    }
  }

  ghost predicate Ascending(ks: seq<string>) {
    forall i, j :: 0 <= i < j < |ks| ==> Before(ks[i], ks[j])
  }

  predicate IsLeast(k: string, ks: set<string>) {
    k in ks && forall j :: j in ks ==> j == k || Before(k, j)
  }

  lemma {:induction false} LeastExists(ks: set<string>)
    requires ks != {}
    ensures exists k :: IsLeast(k, ks)
    decreases |ks|
  {
    var k :| k in ks;
    if ks == {k} {
      assert IsLeast(k, ks);
    } else {
      LeastExists(ks - {k});
      var l :| IsLeast(l, ks - {k});
      var m := if Before(k, l) then k else l;
      forall j | j in ks ensures j == m || Before(m, j) {
        BeforeIsStrictTotal(k, l, j);
      }
      assert IsLeast(m, ks);
    }
  }

  ghost predicate IsSorted(s: seq<string>, ks: set<string>) {
    Ascending(s) && PySeq.Elements(s) == ks
  }

  lemma {:induction false} SortedExists(ks: set<string>)
    ensures exists s :: IsSorted(s, ks)
    decreases |ks|
  {
    if ks == {} {
      assert IsSorted([], ks);
    } else {
      LeastExists(ks);
      var least :| IsLeast(least, ks);
      SortedExists(ks - {least});
      var rest :| IsSorted(rest, ks - {least});
      LeastThenRest(least, rest, ks);
    }
  }

  lemma LeastThenRest(least: string, rest: seq<string>, ks: set<string>)
    requires IsLeast(least, ks) && IsSorted(rest, ks - {least})
    ensures IsSorted([least] + rest, ks)
  {
    forall i | 0 <= i < |rest| ensures Before(least, rest[i]) { assert rest[i] in PySeq.Elements(rest); }
    assert PySeq.Elements([least] + rest) == {least} + PySeq.Elements(rest);
  }

  /** The keys of a set in ascending order; AscendingUnique shows there is only one such list. */
  ghost function SortedKeys(ks: set<string>): (s: seq<string>)
    ensures IsSorted(s, ks) && |s| == |ks|
  {
    SortedExists(ks);
    var s :| IsSorted(s, ks);
    AscendingDistinct(s);
    PySeq.DistinctLength(s);
    s
  }

  lemma AscendingDistinct(s: seq<string>)
    requires Ascending(s)
    ensures PySeq.Distinct(s)
  {
    forall i, j | 0 <= i < j < |s| ensures s[i] != s[j] { BeforeIsStrictTotal(s[i], s[j], s[j]); }
  }

  /** An ascending list is determined by its elements. */
  lemma {:induction false} AscendingUnique(a: seq<string>, b: seq<string>)
    requires Ascending(a) && Ascending(b) && PySeq.Elements(a) == PySeq.Elements(b)
    ensures a == b
  {
    AscendingDistinct(a);
    AscendingDistinct(b);
    PySeq.DistinctLength(a);
    PySeq.DistinctLength(b);
    if a != [] {
      assert a[0] in PySeq.Elements(b);
      var i :| 0 <= i < |b| && b[i] == a[0];
      assert b[0] in PySeq.Elements(a);
      var j :| 0 <= j < |a| && a[j] == b[0];
      BeforeIsStrictTotal(a[0], b[0], a[0]);
      assert a[0] == b[0];
      forall k | k in PySeq.Elements(a[1..]) ensures k in PySeq.Elements(b[1..]) { TailElement(a, b, k); }
      forall k | k in PySeq.Elements(b[1..]) ensures k in PySeq.Elements(a[1..]) { TailElement(b, a, k); }
      AscendingUnique(a[1..], b[1..]);
    }
  }

  lemma SortedUnique(s: seq<string>, ks: set<string>)
    requires Ascending(s) && PySeq.Elements(s) == ks
    ensures s == SortedKeys(ks) && |s| == |ks|
  {
    AscendingUnique(s, SortedKeys(ks));
  }

  lemma TailElement(a: seq<string>, b: seq<string>, k: string)
    requires Ascending(a) && |a| > 0 && |b| > 0 && a[0] == b[0]
    requires PySeq.Elements(a) == PySeq.Elements(b)
    requires k in a[1..]
    ensures k in b[1..]
  {
    BeforeIsStrictTotal(a[0], k, k);
    assert k in PySeq.Elements(b);
    var i :| 0 <= i < |b| && b[i] == k;
    assert i > 0 && b[1..][i - 1] == k;
  }

  // ---- History and window ----

  /** The newest candle seen for every non-blank timestamp of a history. */
  function LastWrite(h: seq<Candle>): (m: map<string, Candle>)
    ensures forall k :: k in m ==> m[k].stamp == k && k != ""
  {
    if h == [] then map[]
    else
      var c := h[|h| - 1];
      var m := LastWrite(h[..|h| - 1]);
      if c.stamp == "" then m else m[c.stamp := c]
  }

  /** The candles of a map by ascending timestamp, sliced as the source slices them. */
  ghost function Render(m: map<string, Candle>, maxBars: int): seq<Candle> {
    var ks := SortedKeys(m.Keys);
    assert forall i :: 0 <= i < |ks| ==> ks[i] in PySeq.Elements(ks);
    PySeq.Tail(PySeq.Values(m, ks), maxBars)
  }

  /** The whole unbounded history, cut once at the end. */
  ghost function Window(h: seq<Candle>, maxBars: int): seq<Candle> {
    Render(LastWrite(h), maxBars)
  }

  lemma WindowTail(h: seq<Candle>, n: nat, k: nat)
    requires n > 0 && k > 0
    ensures PySeq.Tail(Window(h, n), k) == Window(h, if k < n then k else n)
  {
    var m := LastWrite(h);
    var ks := SortedKeys(m.Keys);
    assert forall i :: 0 <= i < |ks| ==> ks[i] in PySeq.Elements(ks);
    PySeq.TailTwice(PySeq.Values(m, ks), n, k);
  }

  /** `merge_candles`: a dictionary filled in list order, then sorted and sliced. */
  method MergeCandles(existing: seq<Candle>, incoming: seq<Candle>, maxBars: int) returns (r: seq<Candle>)
    ensures r == Window(existing + incoming, maxBars)
  {
    var all := existing + incoming;
    var merged: map<string, Candle> := map[];
    for i := 0 to |all|
      invariant merged == LastWrite(all[..i])
    {
      assert all[..i + 1][..i] == all[..i];
      if all[i].stamp != "" {
        merged := merged[all[i].stamp := all[i]];
      }
    }
    assert all[..|all|] == all;
    var ks := Sorted(merged.Keys);
    AscendingUnique(ks, SortedKeys(merged.Keys));
    assert forall i :: 0 <= i < |ks| ==> ks[i] in PySeq.Elements(ks);
    r := PySeq.Tail(PySeq.Values(merged, ks), maxBars);
  }

  /** ks lists the keys below all of the rest. */
  ghost predicate Partly(ks: seq<string>, rest: set<string>, keys: set<string>) {
    rest <= keys && IsSorted(ks, keys - rest) && forall i, k :: 0 <= i < |ks| && k in rest ==> Before(ks[i], k)
  }

  lemma PartlyStep(ks: seq<string>, rest: set<string>, keys: set<string>, k: string)
    requires Partly(ks, rest, keys) && IsLeast(k, rest)
    ensures Partly(ks + [k], rest - {k}, keys)
  {
    PySeq.ElementsAppend(ks, k);
    assert keys - (rest - {k}) == (keys - rest) + {k};
  }

  /** `sorted` on a set of keys. */
  method Sorted(keys: set<string>) returns (ks: seq<string>)
    ensures Ascending(ks) && PySeq.Elements(ks) == keys
  {
    ks := [];
    var rest := keys;
    while rest != {}
      invariant Partly(ks, rest, keys)
      decreases |rest|
    {
      LeastExists(rest);
      var k :| k in rest && IsLeast(k, rest);
      PartlyStep(ks, rest, keys, k);
      ks, rest := ks + [k], rest - {k};
    }
  }

  // ---- Which keys survive the cut ----

  ghost function Above(ks: set<string>, k: string): set<string> {
    set j | j in ks && Before(k, j)
  }

  /** The n largest keys. */
  ghost function Top(ks: set<string>, n: nat): set<string> {
    set k | k in ks && |Above(ks, k)| < n
  }

  lemma AboveOfSorted(ks: set<string>, i: nat)
    requires i < |ks|
    ensures Above(ks, SortedKeys(ks)[i]) == PySeq.Elements(SortedKeys(ks)[i + 1..])
    ensures |Above(ks, SortedKeys(ks)[i])| == |ks| - 1 - i
  {
    var s := SortedKeys(ks);
    forall k | k in Above(ks, s[i]) ensures k in s[i + 1..] {
      assert k in PySeq.Elements(s);
      var j :| 0 <= j < |s| && s[j] == k;
      BeforeIsStrictTotal(s[i], k, k);
      assert j > i && s[i + 1..][j - i - 1] == k;
    }
    forall k | k in s[i + 1..] ensures k in Above(ks, s[i]) {
      assert k in PySeq.Elements(s);
    }
    assert Above(ks, s[i]) == PySeq.Elements(s[i + 1..]);
    AscendingDistinct(s[i + 1..]);
    PySeq.DistinctLength(s[i + 1..]);
  }

  lemma TopOfSorted(ks: set<string>, n: nat, i: nat)
    requires i < |ks|
    ensures SortedKeys(ks)[i] in Top(ks, n) <==> i + n >= |ks|
  {
    AboveOfSorted(ks, i);
    assert SortedKeys(ks)[i] in PySeq.Elements(SortedKeys(ks));
  }

  lemma SuffixKeepsAscending(s: seq<string>, d: nat)
    requires Ascending(s) && d <= |s|
    ensures Ascending(s[d..])
  {
    forall i, j | 0 <= i < j < |s| - d ensures Before(s[d..][i], s[d..][j]) {
      assert Before(s[d + i], s[d + j]);
    }
  }

  lemma TopElements(ks: set<string>, n: nat, s: seq<string>, d: nat)
    requires s == SortedKeys(ks) && d == (if n < |s| then |s| - n else 0)
    ensures PySeq.Elements(s[d..]) == Top(ks, n)
  {
    forall k | k in Top(ks, n) ensures k in s[d..] {
      assert k in PySeq.Elements(s);
      var i :| 0 <= i < |s| && s[i] == k;
      TopOfSorted(ks, n, i);
      assert s[d..][i - d] == k;
    }
    forall k | k in s[d..] ensures k in Top(ks, n) {
      var i :| 0 <= i < |s[d..]| && s[d..][i] == k;
      TopOfSorted(ks, n, d + i);
    }
  }

  /** The slice of the sorted keys is the sorted list of the n largest keys. */
  lemma TopIsTail(ks: set<string>, n: nat)
    requires n > 0
    ensures SortedKeys(Top(ks, n)) == PySeq.Tail(SortedKeys(ks), n)
  {
    var s := SortedKeys(ks);
    var d := if n < |s| then |s| - n else 0;
    TopElements(ks, n, s, d);
    SuffixKeepsAscending(s, d);
    var t := Top(ks, n);
    SortedUnique(s[d..], t);
    assert SortedKeys(t) == s[d..];
  }

  lemma TopSize(ks: set<string>, n: nat)
    ensures |Top(ks, n)| == if n < |ks| then n else |ks|
  {
    if n == 0 {
      assert Top(ks, n) == {};
    } else {
      TopIsTail(ks, n);
      assert |SortedKeys(Top(ks, n))| == |Top(ks, n)|;
    }
  }

  /** A key below the cut has all of the n largest keys above it. */
  lemma BelowTheCut(ks: set<string>, n: nat, j: string)
    requires j in ks && j !in Top(ks, n)
    ensures forall k :: k in Top(ks, n) ==> Before(j, k)
    ensures |Top(ks, n)| == n
  {
    forall k | k in Top(ks, n) ensures Before(j, k) {
      BeforeIsStrictTotal(j, k, j);
      if Before(k, j) {
        forall x | x in Above(ks, j) ensures x in Above(ks, k) { BeforeIsStrictTotal(k, j, x); }
        SubsetSize(Above(ks, j), Above(ks, k));
      }
    }
    TopSize(ks, n);
    SubsetSize(Above(ks, j), ks);
    assert j in ks && j !in Above(ks, j) by { BeforeIsStrictTotal(j, j, j); }
    ProperSubsetSize(Above(ks, j), ks, j);
  }

  lemma SubsetSize<T>(a: set<T>, b: set<T>)
    requires a <= b
    ensures |a| <= |b|
  {
    assert b == a + (b - a);
  }

  lemma ProperSubsetSize<T>(a: set<T>, b: set<T>, x: T)
    requires a <= b && x in b && x !in a
    ensures |a| < |b|
  {
    SubsetSize(a, b - {x});
  }

  /** Cutting early loses nothing that a later cut would have kept. */
  lemma TopAbsorbs(a: set<string>, b: set<string>, n: nat)
    ensures Top(Top(a, n) + b, n) == Top(a + b, n)
  {
    var cut := Top(a, n) + b;
    forall k | k in Top(a + b, n) ensures k in Top(cut, n) {
      if k in a { SubsetSize(Above(a, k), Above(a + b, k)); }
      SubsetSize(Above(cut, k), Above(a + b, k));
    }
    forall k | k in Top(cut, n) ensures k in Top(a + b, n) {
      if j :| j in a && j !in Top(a, n) && Before(k, j) {
        BelowTheCut(a, n, j);
        forall x | x in Top(a, n) ensures x in Above(cut, k) { BeforeIsStrictTotal(k, j, x); }
        SubsetSize(Top(a, n), Above(cut, k));
      } else {
        assert Above(cut, k) == Above(a + b, k);
      }
    }
  }

  // ---- Incremental merging equals one merge of the whole history ----

  lemma {:induction false} LastWriteAppend(h: seq<Candle>, b: seq<Candle>)
    ensures LastWrite(h + b) == LastWrite(h) + LastWrite(b)
  {
    if b == [] {
      assert h + b == h;
    } else {
      var b' := b[..|b| - 1];
      assert (h + b)[..|h + b| - 1] == h + b';
      LastWriteAppend(h, b');
    }
  }

  lemma {:induction false} LastWriteOfValues(m: map<string, Candle>, ks: seq<string>)
    requires forall k :: k in m ==> m[k].stamp == k && k != ""
    requires forall i :: 0 <= i < |ks| ==> ks[i] in m
    ensures LastWrite(PySeq.Values(m, ks)) == map k | k in ks :: m[k]
  {
    if ks != [] {
      var init := ks[..|ks| - 1];
      LastWriteOfValues(m, init);
      assert PySeq.Values(m, ks)[..|ks| - 1] == PySeq.Values(m, init);
      assert ks == init + [ks[|ks| - 1]];
    }
  }

  function Restrict(m: map<string, Candle>, ks: set<string>): map<string, Candle> {
    map k | k in m && k in ks :: m[k]
  }

  /** The candles of the given keys by ascending timestamp. */
  ghost function Pick(m: map<string, Candle>, ks: set<string>): seq<Candle>
    requires ks <= m.Keys
  {
    var s := SortedKeys(ks);
    assert forall i :: 0 <= i < |s| ==> s[i] in PySeq.Elements(s);
    PySeq.Values(m, s)
  }

  lemma TailOfValues(m: map<string, Candle>, s: seq<string>, t: seq<string>, n: nat)
    requires n > 0 && t == PySeq.Tail(s, n)
    requires forall i :: 0 <= i < |s| ==> s[i] in m
    ensures forall i :: 0 <= i < |t| ==> t[i] in m
    ensures PySeq.Values(m, t) == PySeq.Tail(PySeq.Values(m, s), n)
  {
  }

  /** The keys a slice of the sorted keys keeps. */
  ghost function Kept(ks: set<string>, n: nat): set<string> {
    if n == 0 then ks else Top(ks, n)
  }

  lemma RenderKept(m: map<string, Candle>, n: nat)
    ensures Render(m, n) == Pick(m, Kept(m.Keys, n))
  {
    if n > 0 {
      var s := SortedKeys(m.Keys);
      assert forall i :: 0 <= i < |s| ==> s[i] in PySeq.Elements(s);
      var ks := Top(m.Keys, n);
      var t := PySeq.Tail(s, n);
      TailOfValues(m, s, t, n);
      assert SortedKeys(ks) == t by { TopIsTail(m.Keys, n); }
    }
  }

  /** Rendering looks only at the kept keys. */
  lemma SameKeptSameRender(m1: map<string, Candle>, m2: map<string, Candle>, n: nat)
    requires Kept(m1.Keys, n) == Kept(m2.Keys, n)
    requires forall k :: k in Kept(m1.Keys, n) ==> m1[k] == m2[k]
    ensures Render(m1, n) == Render(m2, n)
  {
    RenderKept(m1, n);
    RenderKept(m2, n);
    var s := SortedKeys(Kept(m1.Keys, n));
    assert forall i :: 0 <= i < |s| ==> s[i] in PySeq.Elements(s);
  }

  lemma LastWriteOfPick(m: map<string, Candle>, ks: set<string>)
    requires forall k :: k in m ==> m[k].stamp == k && k != ""
    requires ks <= m.Keys
    ensures LastWrite(Pick(m, ks)) == Restrict(m, ks)
  {
    var s := SortedKeys(ks);
    assert forall i :: 0 <= i < |s| ==> s[i] in PySeq.Elements(s);
    assert forall k :: k in s <==> k in PySeq.Elements(s);
    LastWriteOfValues(m, s);
  }

  /** Absorption for the sliced keys. */
  lemma KeptAbsorbs(a: set<string>, b: set<string>, n: nat)
    ensures Kept(Kept(a, n) + b, n) == Kept(a + b, n)
  {
    TopAbsorbs(a, b, n);
  }

  lemma KeptIsSubset(a: set<string>, n: nat)
    ensures Kept(a, n) <= a
  {
  }

  /** A window remembers exactly the last writes of its kept keys. */
  lemma LastWriteOfWindow(h: seq<Candle>, n: nat)
    ensures LastWrite(Window(h, n)) == Restrict(LastWrite(h), Kept(LastWrite(h).Keys, n))
  {
    var m := LastWrite(h);
    RenderKept(m, n);
    KeptIsSubset(m.Keys, n);
    LastWriteOfPick(m, Kept(m.Keys, n));
  }

  lemma RenderForgets(m: map<string, Candle>, mb: map<string, Candle>, n: nat)
    ensures Render(Restrict(m, Kept(m.Keys, n)) + mb, n) == Render(m + mb, n)
  {
    var ks := Kept(m.Keys, n);
    KeptIsSubset(m.Keys, n);
    var kept := Restrict(m, ks);
    assert kept.Keys == ks;
    KeptAbsorbs(m.Keys, mb.Keys, n);
    KeptIsSubset(ks + mb.Keys, n);
    assert (kept + mb).Keys == ks + mb.Keys;
    assert (m + mb).Keys == m.Keys + mb.Keys;
    SameKeptSameRender(kept + mb, m + mb, n);
  }

  /** Cutting after every merge gives the window that one final cut would give. */
  lemma MergeIsIncremental(h: seq<Candle>, b: seq<Candle>, n: nat)
    ensures Window(Window(h, n) + b, n) == Window(h + b, n)
  {
    LastWriteOfWindow(h, n);
    LastWriteAppend(h, b);
    LastWriteAppend(Window(h, n), b);
    RenderForgets(LastWrite(h), LastWrite(b), n);
  }

  /** Ingesting a snapshot again changes nothing. */
  lemma MergeIsIdempotent(h: seq<Candle>, b: seq<Candle>, n: nat)
    ensures Window(Window(h + b, n) + b, n) == Window(h + b, n)
  {
    MergeIsIncremental(h + b, b, n);
    LastWriteRepeat(h, b);
  }

  lemma LastWriteRepeat(h: seq<Candle>, b: seq<Candle>)
    ensures LastWrite((h + b) + b) == LastWrite(h + b)
  {
    LastWriteAppend(h, b);
    LastWriteAppend(h + b, b);
  }

  // ---- Negative bounds ----

  /** Candles stamped "!", "!!", "!!!", ... : a history of n distinct timestamps. */
  function Ladder(n: nat): (r: seq<Candle>)
    ensures |r| == n && forall i :: 0 <= i < n ==> r[i] == Rung(i)
  {
    seq(n, i requires 0 <= i => Rung(i))
  }

  function Rung(i: nat): (c: Candle)
    ensures |c.stamp| == i + 1
  {
    Candle(seq(i + 1, _ => '!'), 0.0)
  }

  lemma LadderStep(n: nat)
    ensures LastWrite(Ladder(n + 1)) == LastWrite(Ladder(n))[Rung(n).stamp := Rung(n)]
  {
    assert Ladder(n + 1)[..n] == Ladder(n);
  }

  lemma MapGrows<K, V>(m: map<K, V>, k: K, v: V)
    requires k !in m
    ensures |m[k := v]| == |m| + 1
  {
    assert m[k := v].Keys == m.Keys + {k};
  }

  lemma {:induction false} LadderKeys(n: nat)
    ensures |LastWrite(Ladder(n))| == n
    ensures forall k :: k in LastWrite(Ladder(n)) ==> |k| <= n
  {
    if n > 0 {
      LadderKeys(n - 1);
      LadderStep(n - 1);
      MapGrows(LastWrite(Ladder(n - 1)), Rung(n - 1).stamp, Rung(n - 1));
    }
  }

  /** Merging in steps agrees with merging at once exactly when the bound is not negative. */
  lemma MergeLawNeedsNonNegativeBound(n: int)
    ensures (forall h, b :: Window(Window(h, n) + b, n) == Window(h + b, n)) <==> n >= 0
  {
    if n >= 0 {
      forall h, b ensures Window(Window(h, n) + b, n) == Window(h + b, n) { MergeIsIncremental(h, b, n); }
    } else {
      var h := Ladder(1 - n);
      LadderKeys(1 - n);
      assert h + [] == h && Window(h, n) + [] == Window(h, n);
      assert |SortedKeys(LastWrite(h).Keys)| == 1 - n;
      assert |Window(h, n)| == 1;
      LastWriteSize(Window(h, n));
      assert |SortedKeys(LastWrite(Window(h, n)).Keys)| <= 1;
      assert |Window(Window(h, n), n)| == 0;
      assert Window(Window(h, n) + [], n) != Window(h + [], n);
    }
  }

  lemma LastWriteSize(h: seq<Candle>)
    ensures |LastWrite(h)| <= |h|
  {
  }

  // ---- What a window is ----

  /** The distinct timestamps a history has shown. */
  function Stamps(h: seq<Candle>): set<string> {
    set c | c in h && c.stamp != "" :: c.stamp
  }

  /** c is the most recently ingested candle of h with its timestamp. */
  ghost predicate IsLastFor(c: Candle, h: seq<Candle>) {
    c.stamp != "" && exists i :: 0 <= i < |h| && h[i] == c && forall j :: i < j < |h| ==> h[j].stamp != c.stamp
  }

  lemma {:induction false} LastWriteIsLast(h: seq<Candle>)
    ensures LastWrite(h).Keys == Stamps(h)
    ensures forall k :: k in LastWrite(h) ==> IsLastFor(LastWrite(h)[k], h)
  {
    if h != [] {
      var h', c := h[..|h| - 1], h[|h| - 1];
      LastWriteIsLast(h');
      assert h == h' + [c];
      StampsAppend(h', c);
      forall k | k in LastWrite(h) ensures IsLastFor(LastWrite(h)[k], h) {
        LastForAppend(h', c, if k in LastWrite(h') then LastWrite(h')[k] else c);
      }
    }
  }

  lemma StampsAppend(h: seq<Candle>, c: Candle)
    ensures Stamps(h + [c]) == Stamps(h) + (if c.stamp == "" then {} else {c.stamp})
  {
  }

  lemma LastForAppend(h: seq<Candle>, c: Candle, d: Candle)
    ensures c.stamp != "" ==> IsLastFor(c, h + [c])
    ensures IsLastFor(d, h) && d.stamp != c.stamp ==> IsLastFor(d, h + [c])
  {
    var after := h + [c];
    assert after[|h|] == c;
    if IsLastFor(d, h) && d.stamp != c.stamp {
      var i :| 0 <= i < |h| && h[i] == d && forall j :: i < j < |h| ==> h[j].stamp != d.stamp;
      assert after[i] == d;
    }
  }

  /** The window, candle by candle. */
  lemma WindowAt(h: seq<Candle>, n: nat)
    requires n > 0
    ensures |Window(h, n)| == |SortedKeys(Top(Stamps(h), n))|
    ensures forall i :: 0 <= i < |Window(h, n)| ==>
      && Window(h, n)[i].stamp == SortedKeys(Top(Stamps(h), n))[i]
      && IsLastFor(Window(h, n)[i], h)
  {
    var m := LastWrite(h);
    LastWriteIsLast(h);
    RenderKept(m, n);
    var s := SortedKeys(Top(m.Keys, n));
    assert forall i :: 0 <= i < |s| ==> s[i] in PySeq.Elements(s);
  }

  lemma StampsOf(w: seq<Candle>, s: seq<string>)
    requires |w| == |s| && forall i :: 0 <= i < |w| ==> w[i].stamp == s[i] && s[i] != ""
    ensures Stamps(w) == PySeq.Elements(s)
  {
    forall k | k in s ensures k in Stamps(w) {
      var i :| 0 <= i < |s| && s[i] == k;
      assert w[i] in w;
    }
  }

  lemma WindowStamps(h: seq<Candle>, n: nat)
    requires n > 0
    ensures Stamps(Window(h, n)) == Top(Stamps(h), n)
  {
    WindowAt(h, n);
    StampsOf(Window(h, n), SortedKeys(Top(Stamps(h), n)));
  }

  /** The window is the newest distinct timestamps of the history: in ascending order, each
      with the last candle ingested for it, as many as the bound allows, and everything left
      out is older than everything kept. */
  lemma WindowIsNewest(h: seq<Candle>, n: nat)
    requires n > 0
    ensures forall i, j :: 0 <= i < j < |Window(h, n)| ==> Before(Window(h, n)[i].stamp, Window(h, n)[j].stamp)
    ensures forall c :: c in Window(h, n) ==> IsLastFor(c, h)
    ensures |Window(h, n)| == if n < |Stamps(h)| then n else |Stamps(h)|
    ensures forall k, j :: k in Stamps(h) - Stamps(Window(h, n)) && j in Stamps(Window(h, n)) ==> Before(k, j)
  {
    WindowAt(h, n);
    WindowStamps(h, n);
    TopSize(Stamps(h), n);
    forall k | k in Stamps(h) - Stamps(Window(h, n)) ensures forall j :: j in Stamps(Window(h, n)) ==> Before(k, j) {
      BelowTheCut(Stamps(h), n, k);
    }
  }
}
