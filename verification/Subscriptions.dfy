/** Which symbols the runtime follows: catalog, bootstrap list and subscribed universe. */
module Subscriptions {
  import opened Symbols
  import PySeq

  /** The normalised, operable, distinct symbols of a list, by first appearance. */
  function NormalizedUnique(raw: seq<string>): seq<string> {
    if raw == [] then []
    else
      var seen := NormalizedUnique(raw[..|raw| - 1]);
      var s := Normalize(raw[|raw| - 1]);
      if s == "" || s in seen || !IsOperable(s) then seen else seen + [s]
  }

  /** The symbols a list stands for. */
  function Named(raw: seq<string>): set<string> {
    set r | r in raw && IsOperable(r) :: Normalize(r)
  }

  lemma AddedOnce(seen: seq<string>, names: set<string>, s: string, ok: bool)
    requires PySeq.Distinct(seen) && PySeq.Elements(seen) == names
    ensures var r := if ok && s !in seen then seen + [s] else seen;
      PySeq.Distinct(r) && PySeq.Elements(r) == names + (if ok then {s} else {})
  {
    assert s in seen <==> s in PySeq.Elements(seen);
    PySeq.ElementsAppend(seen, s);
  }

  lemma NormalizedUniqueLast(raw: seq<string>)
    requires raw != []
    ensures var seen := NormalizedUnique(raw[..|raw| - 1]);
      var s := Normalize(raw[|raw| - 1]);
      NormalizedUnique(raw) == if IsOperable(raw[|raw| - 1]) && s !in seen then seen + [s] else seen
  {
    NormalizeIdempotent(raw[|raw| - 1]);
  }

  lemma {:induction false} NormalizedUniqueIs(raw: seq<string>)
    ensures PySeq.Distinct(NormalizedUnique(raw))
    ensures PySeq.Elements(NormalizedUnique(raw)) == Named(raw)
  {
    if raw != [] {
      var init, last := raw[..|raw| - 1], raw[|raw| - 1];
      NormalizedUniqueIs(init);
      NormalizedUniqueLast(raw);
      NamedAppend(init, last);
      AddedOnce(NormalizedUnique(init), Named(init), Normalize(last), IsOperable(last));
      assert raw == init + [last];
    }
  }

  lemma NamedAppend(raw: seq<string>, r: string)
    ensures Named(raw + [r]) == Named(raw) + (if IsOperable(r) then {Normalize(r)} else {})
  {
  }

  lemma NamedIsTradable(raw: seq<string>)
    ensures forall s :: s in Named(raw) ==> Tradable(s)
  {
    forall r | r in raw && IsOperable(r) ensures Tradable(Normalize(r)) { NormalizeIdempotent(r); }
  }

  /** What the walk over a list produces: distinct symbols, each usable as it is. */
  lemma NormalizedUniqueIsClean(raw: seq<string>)
    ensures CleanList(NormalizedUnique(raw))
    ensures forall s :: s in NormalizedUnique(raw) <==> s in Named(raw)
  {
    NormalizedUniqueIs(raw);
    NamedIsTradable(raw);
    assert forall s :: s in NormalizedUnique(raw) <==> s in PySeq.Elements(NormalizedUnique(raw));
  }

  ghost predicate CleanList(s: seq<string>) {
    PySeq.Distinct(s) && forall i :: 0 <= i < |s| ==> Tradable(s[i])
  }

  lemma CleanInit(s: seq<string>)
    requires CleanList(s) && s != []
    ensures CleanList(s[..|s| - 1]) && s[|s| - 1] !in s[..|s| - 1]
    ensures Normalize(s[|s| - 1]) == s[|s| - 1] && IsOperable(s[|s| - 1])
  {
    var init, last := s[..|s| - 1], s[|s| - 1];
    TradableIsItself(last);
    forall i | 0 <= i < |init| ensures Tradable(init[i]) { assert Tradable(s[i]); }
  }

  /** A list that is already clean is left alone, so filtering twice is filtering once. */
  lemma {:induction false} CleanListUnchanged(s: seq<string>)
    requires CleanList(s)
    ensures NormalizedUnique(s) == s
  {
    if s != [] {
      CleanInit(s);
      CleanListUnchanged(s[..|s| - 1]);
      NormalizedUniqueLast(s);
      assert s == s[..|s| - 1] + [s[|s| - 1]];
    }
  }

  lemma TradableIsItself(s: string)
    requires Tradable(s)
    ensures Normalize(s) == s && IsOperable(s) && s != ""
  {
  }

  /** `_normalize_unique_symbols`. */
  method NormalizeUniqueSymbols(raw: seq<string>) returns (ordered: seq<string>)
    ensures ordered == NormalizedUnique(raw)
  {
    ordered := [];
    var seen: set<string> := {};
    for i := 0 to |raw|
      invariant ordered == NormalizedUnique(raw[..i]) && seen == PySeq.Elements(ordered)
    {
      assert raw[..i + 1][..i] == raw[..i];
      var symbol := Normalize(raw[i]);
      if symbol == "" || symbol in seen || !IsOperable(symbol) { continue; }
      PySeq.ElementsAppend(ordered, symbol);
      ordered, seen := ordered + [symbol], seen + {symbol};
    }
    assert raw[..|raw|] == raw;
  }

  function Within(s: seq<string>, allowed: set<string>): (r: seq<string>)
    ensures forall x :: x in r <==> x in s && x in allowed
    ensures PySeq.Distinct(s) ==> PySeq.Distinct(r)
  {
    if s == [] then []
    else
      var r := Within(s[..|s| - 1], allowed);
      if s[|s| - 1] in allowed then r + [s[|s| - 1]] else r
  }

  lemma WithinIsClean(s: seq<string>, allowed: set<string>)
    requires CleanList(s)
    ensures CleanList(Within(s, allowed))
  {
    var r := Within(s, allowed);
    forall i | 0 <= i < |r| ensures Tradable(r[i]) { assert r[i] in s; }
  }

  /** The subscription state as a value. */
  datatype Universe = Universe(catalog: seq<string>, bootstrap: seq<string>, subscribed: seq<string>)
  {
    predicate Rejects(s: string) {
      catalog != [] && s !in catalog
    }

    function Subscribe(symbol: string): Universe {
      var s := Normalize(symbol);
      if !IsOperable(s) || Rejects(s) || s in subscribed then this else this.(subscribed := subscribed + [s])
    }

    function ForceSubscribe(symbol: string): Universe {
      var s := Normalize(symbol);
      if !IsOperable(s) || s in subscribed then this else this.(subscribed := subscribed + [s])
    }

    function Unsubscribe(symbol: string): Universe {
      this.(subscribed := Within(subscribed, PySeq.Elements(subscribed) - {Normalize(symbol)}))
    }

    function Accepted(raw: seq<string>): seq<string> {
      var requested := NormalizedUnique(raw);
      if catalog == [] then requested else Within(requested, PySeq.Elements(catalog))
    }

    function Replace(raw: seq<string>): Universe {
      this.(subscribed := Accepted(raw))
    }

    function BootstrapFrom(raw: seq<string>): Universe {
      this.(bootstrap := Accepted(raw), subscribed := Accepted(raw))
    }

    /** Also follows the symbols of a list that are not followed yet, listed or not. */
    function Following(raw: seq<string>): Universe {
      this.(subscribed := subscribed + Within(NormalizedUnique(raw), Named(raw) - PySeq.Elements(subscribed)))
    }

    /** The subscriptions the catalog still allows; an empty catalog allows all. */
    function Reconciled(): Universe {
      if catalog == [] then this
      else this.(bootstrap := Within(bootstrap, PySeq.Elements(catalog)),
                 subscribed := Within(subscribed, PySeq.Elements(catalog)))
    }

    ghost predicate Clean() {
      CleanList(subscribed) && CleanList(catalog)
    }
  }

  /** Unsubscribing undoes a subscription exactly if the symbol was not followed before. */
  lemma UnsubscribeUndoesIff(u: Universe, symbol: string)
    requires u.Clean()
    ensures u.Subscribe(symbol).Unsubscribe(symbol) == u <==> Normalize(symbol) !in u.subscribed
  {
    var s, v := Normalize(symbol), u.Subscribe(symbol);
    var others := PySeq.Elements(v.subscribed) - {s};
    if s in u.subscribed {
      assert s !in Within(v.subscribed, others);
    } else {
      WithinAll(u.subscribed, others);
      if v != u { assert v.subscribed[..|u.subscribed|] == u.subscribed; }
    }
  }

  class SubscriptionManager {
    var catalogUniverse: seq<string>
    var catalogLookup: set<string>
    var bootstrapUniverse: seq<string>
    var subscribedUniverse: seq<string>

    ghost function View(): Universe
      reads this
    {
      Universe(catalogUniverse, bootstrapUniverse, subscribedUniverse)
    }

    ghost predicate Valid()
      reads this
    {
      catalogLookup == PySeq.Elements(catalogUniverse) && View().Clean()
    }

    lemma LookupIsCatalog()
      requires Valid()
      ensures catalogLookup == {} <==> catalogUniverse == []
      ensures forall s :: s in catalogLookup <==> s in catalogUniverse
    {
      assert catalogUniverse != [] ==> catalogUniverse[0] in catalogLookup;
    }

    constructor (bootstrapSymbols: seq<string>)
      ensures Valid()
      ensures View() == Universe([], NormalizedUnique(bootstrapSymbols), NormalizedUnique(bootstrapSymbols))
    {
      var bootstrap := NormalizeUniqueSymbols(bootstrapSymbols);
      NormalizedUniqueIsClean(bootstrapSymbols);
      catalogUniverse, catalogLookup := [], {};
      bootstrapUniverse, subscribedUniverse := bootstrap, bootstrap;
    }

    method SetCatalogUniverse(symbols: seq<string>)
      requires Valid()
      modifies this
      ensures Valid()
      ensures View() == old(View()).(catalog := NormalizedUnique(symbols))
    {
      var catalog := NormalizeUniqueSymbols(symbols);
      NormalizedUniqueIsClean(symbols);
      catalogUniverse, catalogLookup := catalog, PySeq.Elements(catalog);
    }

    method BootstrapFromEnv(symbols: seq<string>) returns (rejected: seq<string>)
      requires Valid()
      modifies this
      ensures Valid()
      ensures View() == old(View()).BootstrapFrom(symbols)
      ensures forall s :: s in rejected <==> s in NormalizedUnique(symbols) && old(View()).Rejects(s)
    {
      LookupIsCatalog();
      NormalizedUniqueIsClean(symbols);
      var requested := NormalizeUniqueSymbols(symbols);
      var accepted := requested;
      rejected := [];
      if catalogLookup != {} {
        WithinIsClean(requested, catalogLookup);
        accepted := Within(requested, catalogLookup);
        rejected := Within(requested, PySeq.Elements(requested) - catalogLookup);
      }
      bootstrapUniverse, subscribedUniverse := accepted, accepted;
    }

    method ReconcileSubscriptionsWithCatalog() returns (removed: seq<string>)
      requires Valid()
      modifies this
      ensures Valid()
      ensures View() == old(View()).Reconciled()
      ensures forall s :: s in removed <==> s in old(subscribedUniverse) && s !in subscribedUniverse
    {
      LookupIsCatalog();
      if catalogLookup == {} { return []; }
      WithinIsClean(subscribedUniverse, catalogLookup);
      removed := Within(subscribedUniverse, PySeq.Elements(subscribedUniverse) - catalogLookup);
      subscribedUniverse := Within(subscribedUniverse, catalogLookup);
      bootstrapUniverse := Within(bootstrapUniverse, catalogLookup);
    }

    method Subscribe(symbol: string) returns (changed: bool)
      requires Valid()
      modifies this
      ensures Valid()
      ensures View() == old(View()).Subscribe(symbol)
      ensures changed <==> View() != old(View())
    {
      LookupIsCatalog();
      NormalizeIdempotent(symbol);
      var normalized := Normalize(symbol);
      if normalized == "" || !IsOperable(normalized) { return false; }
      if catalogLookup != {} && normalized !in catalogLookup { return false; }
      if normalized in subscribedUniverse { return false; }
      subscribedUniverse := subscribedUniverse + [normalized];
      changed := true;
    }

    method ForceSubscribe(symbol: string) returns (changed: bool)
      requires Valid()
      modifies this
      ensures Valid()
      ensures View() == old(View()).ForceSubscribe(symbol)
      ensures changed <==> View() != old(View())
    {
      NormalizeIdempotent(symbol);
      var normalized := Normalize(symbol);
      if normalized == "" || !IsOperable(normalized) { return false; }
      if normalized in subscribedUniverse { return false; }
      subscribedUniverse := subscribedUniverse + [normalized];
      changed := true;
    }

    method Unsubscribe(symbol: string) returns (changed: bool)
      requires Valid()
      modifies this
      ensures Valid()
      ensures View() == old(View()).Unsubscribe(symbol)
      ensures changed <==> Normalize(symbol) in old(subscribedUniverse)
    {
      var normalized := Normalize(symbol);
      WithinIsClean(subscribedUniverse, PySeq.Elements(subscribedUniverse) - {normalized});
      if normalized == "" || normalized !in subscribedUniverse {
        WithinAll(subscribedUniverse, PySeq.Elements(subscribedUniverse) - {normalized});
        return false;
      }
      subscribedUniverse := Within(subscribedUniverse, PySeq.Elements(subscribedUniverse) - {normalized});
      changed := true;
    }

    method ReplaceSubscribedUniverse(symbols: seq<string>)
      requires Valid()
      modifies this
      ensures Valid()
      ensures View() == old(View()).Replace(symbols)
    {
      LookupIsCatalog();
      NormalizedUniqueIsClean(symbols);
      var requested := NormalizeUniqueSymbols(symbols);
      if catalogLookup != {} {
        WithinIsClean(requested, catalogLookup);
        requested := Within(requested, catalogLookup);
      }
      subscribedUniverse := requested;
    }

    /** Follows a symbol even if the catalog does not list it. */
    method SubscribeOrForce(symbol: string) returns (changed: bool)
      requires Valid() && Tradable(symbol)
      modifies this
      ensures Valid()
      ensures changed <==> symbol !in old(subscribedUniverse)
      ensures View() == old(View()).(subscribed := old(subscribedUniverse) + (if changed then [symbol] else []))
    {
      TradableIsItself(symbol);
      changed := Subscribe(symbol);
      if !changed {
        changed := ForceSubscribe(symbol);
      }
    }

    /** `_ensure_account_activity_symbols_subscribed`: symbols with open business are followed,
        even those the catalog does not list. */
    method EnsureSubscribed(activity: seq<string>) returns (changed: seq<string>)
      requires Valid()
      modifies this
      ensures Valid()
      ensures View() == old(View()).Following(activity)
      ensures subscribedUniverse == old(subscribedUniverse) + changed
    {
      var symbols := NormalizeUniqueSymbols(activity);
      NormalizedUniqueIsClean(activity);
      changed := [];
      var current := PySeq.Elements(subscribedUniverse);
      ghost var walk := Walk(View(), symbols, Named(activity) - current);
      for i := 0 to |symbols|
        invariant Valid()
        invariant walk.Followed(i, View(), changed, current)
      {
        FollowTurn(walk, i, View(), changed, current);
        if symbols[i] in current { continue; }
        var subscribed := SubscribeOrForce(symbols[i]);
        if !subscribed { continue; }
        changed := changed + [symbols[i]];
        current := current + {symbols[i]};
      }
      assert symbols[..|symbols|] == symbols;
    }
  }

  /** The walk over a list of symbols that follows those which are missing. */
  datatype Walk = Walk(start: Universe, symbols: seq<string>, missing: set<string>)
  {
    /** The universe, what was added and what is followed, i symbols into the walk. */
    ghost predicate Followed(i: nat, now: Universe, changed: seq<string>, current: set<string>)
      requires i <= |symbols|
    {
      && CleanList(symbols) && (forall s :: s in symbols ==> (s in missing <==> s !in start.subscribed))
      && changed == Within(symbols[..i], missing)
      && now == start.(subscribed := start.subscribed + changed)
      && current == PySeq.Elements(now.subscribed)
    }
  }

  /** One turn: a missing symbol is met once, and added. */
  lemma FollowTurn(w: Walk, i: nat, now: Universe, changed: seq<string>, current: set<string>)
    requires i < |w.symbols| && w.Followed(i, now, changed, current)
    ensures var s := w.symbols[i];
      && Tradable(s) && (s in current <==> s in now.subscribed)
      && (if s in current then w.Followed(i + 1, now, changed, current)
          else w.Followed(i + 1, now.(subscribed := now.subscribed + [s]), changed + [s], current + {s}))
  {
    var s := w.symbols[i];
    assert s in w.symbols;
    MetOnce(w.symbols, i);
    WithinNext(w.symbols, w.missing, i);
    PySeq.ElementsAppend(now.subscribed, s);
    assert w.start.subscribed + (changed + [s]) == now.subscribed + [s];
  }

  lemma MetOnce(symbols: seq<string>, i: nat)
    requires i < |symbols| && PySeq.Distinct(symbols)
    ensures symbols[i] !in symbols[..i]
  {
  }

  lemma WithinNext(symbols: seq<string>, allowed: set<string>, i: nat)
    requires i < |symbols|
    ensures Within(symbols[..i + 1], allowed) ==
      Within(symbols[..i], allowed) + (if symbols[i] in allowed then [symbols[i]] else [])
  {
    assert symbols[..i + 1][..i] == symbols[..i];
  }

  lemma {:induction false} WithinAll(s: seq<string>, allowed: set<string>)
    requires forall x :: x in s ==> x in allowed
    ensures Within(s, allowed) == s
  {
    if s != [] {
      WithinAll(s[..|s| - 1], allowed);
      assert s == s[..|s| - 1] + [s[|s| - 1]];
    }
  }
}
