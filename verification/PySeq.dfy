/** The list slices, bounded deques and list walks the runtime relies on. */
module PySeq {

  /** The slice `s[-n:]`, for every sign of `n`: `s[-0:]` is the whole list. */
  function Tail<T>(s: seq<T>, n: int): seq<T> {
    if n > 0 then (if n >= |s| then s else s[|s| - n..])
    else (if -n >= |s| then [] else s[-n..])
  }

  /** The slice `s[:n]`. */
  function Head<T>(s: seq<T>, n: int): seq<T> {
    if n >= 0 then (if n >= |s| then s else s[..n])
    else (if -n >= |s| then [] else s[..|s| + n])
  }

  /** What a `deque(s, maxlen=n)` holds. */
  function Newest<T>(s: seq<T>, n: nat): seq<T> {
    if n >= |s| then s else s[|s| - n..]
  }

  /** The values of a dictionary at a list of its keys. */
  function Values<K, V>(m: map<K, V>, ks: seq<K>): (r: seq<V>)
    requires forall i :: 0 <= i < |ks| ==> ks[i] in m
    ensures |r| == |ks| && forall i :: 0 <= i < |ks| ==> r[i] == m[ks[i]]
  {
    seq(|ks|, i requires 0 <= i < |ks| => m[ks[i]])
  }

  function Elements<T>(s: seq<T>): set<T> {
    set x | x in s
  }

  ghost predicate Distinct<T>(s: seq<T>) {
    forall i, j :: 0 <= i < j < |s| ==> s[i] != s[j]
  }

  function Reversed<T>(s: seq<T>): (r: seq<T>)
    ensures |r| == |s|
    ensures forall i :: 0 <= i < |s| ==> r[i] == s[|s| - 1 - i]
  {
    if s == [] then [] else Reversed(s[1..]) + [s[0]]
  }

  lemma TailTwice<T>(s: seq<T>, n: nat, k: nat)
    requires n > 0 && k > 0
    ensures Tail(Tail(s, n), k) == Tail(s, if k < n then k else n)
  {
  }

  /** A bounded deque forgets exactly what the bound says, whenever the appends happen. */
  lemma NewestAppend<T>(s: seq<T>, t: seq<T>, n: nat)
    ensures Newest(Newest(s, n) + t, n) == Newest(s + t, n)
  {
    if |s| > n {
      var dropped := s[..|s| - n];
      assert s + t == dropped + (Newest(s, n) + t);
    }
  }

  lemma DistinctInit<T>(init: seq<T>, x: T)
    requires Distinct(init + [x])
    ensures Distinct(init) && x !in init
  {
    var s := init + [x];
    forall i | 0 <= i < |init| ensures init[i] != x { assert s[i] != s[|init|]; }
    forall i, j | 0 <= i < j < |init| ensures init[i] != init[j] { assert s[i] != s[j]; }
  }

  lemma {:induction false} DistinctLength<T>(s: seq<T>)
    requires Distinct(s)
    ensures |Elements(s)| == |s|
  {
    if s != [] {
      var init, x := s[..|s| - 1], s[|s| - 1];
      assert s == init + [x];
      DistinctInit(init, x);
      DistinctLength(init);
      ElementsAppend(init, x);
      assert x !in Elements(init);
    }
  }

  lemma ElementsAppend<T>(s: seq<T>, x: T)
    ensures Elements(s + [x]) == Elements(s) + {x}
  {
  }

  /** Counting the places of a list that pass a test, one place at a time. */
  lemma OneMorePlace(places: set<nat>, before: set<nat>, n: nat, hit: bool)
    requires n !in before && forall i :: i in places <==> i in before || (i == n && hit)
    ensures |places| == |before| + (if hit then 1 else 0)
  {
    assert places == before + (if hit then {n} else {});
  }

  lemma OneMoreEntry<T>(s: seq<T>, x: T, y: T)
    ensures multiset(s + [x])[y] == multiset(s)[y] + (if x == y then 1 else 0)
  {
    assert multiset(s + [x]) == multiset(s) + multiset{x};
  }
}
