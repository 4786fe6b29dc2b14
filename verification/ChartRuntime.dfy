/** Subscriptions, chart workers, polling and custody hydration, interleaved in any order. */
module ChartRuntime {
  import opened MarketState
  import opened Subscriptions
  import opened ChartRegistry
  import opened Wrappers
  import PySeq
  import Symbols

  /** The fetch in flight, or the snapshot it brought back, and what the poll still has to do. */
  datatype Poll =
    | Idle
    | Fetching(todo: seq<Key>)
    | Arrived(snapshot: Key, todo: seq<Key>)

  /** The runtime between two scheduling points. Chart memory is represented by its keys;
      `custody` holds the symbols that a transient custody worker keeps hydrated. */
  datatype Runtime = Runtime(
    universe: Universe,
    workers: set<string>,
    ram: set<Key>,
    custody: set<string>,
    timeframes: set<string>,
    poll: Poll)

  datatype Step =
    | SubscribeStep(symbol: string)
    | UnsubscribeStep(symbol: string)
    | ReplaceStep(symbols: seq<string>)
    | BootstrapStep(symbols: seq<string>)
    | CatalogStep(symbols: seq<string>)
    | ActivityStep(symbols: seq<string>)
    | PollStart(order: seq<Key>)
    | FetchDone(snapshot: Option<Key>)
    | PollApply
    | CustodyStart(symbol: string)
    | CustodyIngest(key: Key)
    | CustodyStop(symbol: string)

  /** Changing the universe and syncing the workers happen without a scheduling point between. */
  function Synced(r: Runtime, u: Universe): Runtime {
    var wanted := Named(u.subscribed);
    r.(universe := u, workers := wanted, ram := KeptKeys(r.ram, r.workers - wanted))
  }

  /** The poll walks the symbols subscribed when it started, whatever happens to them since. */
  ghost predicate Enabled(r: Runtime, st: Step) {
    match st
    case PollStart(order) => r.poll.Idle? && forall k :: k in order ==> k.symbol in r.universe.subscribed
    case FetchDone(_) => r.poll.Fetching? && r.poll.todo != []
    case PollApply => r.poll.Arrived?
    case CustodyStart(s) => Symbols.Upper(s) == s
    case CustodyIngest(k) => Symbols.Upper(k.symbol) in r.custody
    case _ => true
  }

  function AfterFetch(todo: seq<Key>): Poll {
    if |todo| <= 1 then Idle else Fetching(todo[1..])
  }

  function After(r: Runtime, st: Step): Runtime {
    match st
    case SubscribeStep(s) =>
      var u := r.universe.Subscribe(s);
      if u == r.universe then r else Synced(r, u)
    case UnsubscribeStep(s) =>
      if Symbols.Normalize(s) !in r.universe.subscribed then r else Synced(r, r.universe.Unsubscribe(s))
    case ReplaceStep(raw) => Synced(r, r.universe.Replace(raw))
    case BootstrapStep(raw) => Synced(r, r.universe.BootstrapFrom(raw))
    case CatalogStep(raw) => Synced(r, r.universe.(catalog := NormalizedUnique(raw)).Reconciled())
    case ActivityStep(raw) =>
      var u := r.universe.Following(raw);
      if u == r.universe then r else Synced(r, u)
    case PollStart(order) => r.(poll := if order == [] then Idle else Fetching(order))
    case FetchDone(snapshot) =>
      if r.poll.Fetching? then
        r.(poll := if snapshot.Some? then Arrived(snapshot.value, r.poll.todo) else AfterFetch(r.poll.todo))
      else r
    case PollApply =>
      if r.poll.Arrived? then
        var k := r.poll.snapshot;
        r.(poll := AfterFetch(r.poll.todo),
           ram := r.ram + (if Reaches(r.workers, r.timeframes, k) then {KeyOf(k.symbol, k.timeframe)} else {}))
      else r
    case CustodyStart(s) => r.(custody := r.custody + {s})
    case CustodyIngest(k) => r.(ram := r.ram + {KeyOf(k.symbol, k.timeframe)})
    case CustodyStop(s) => r.(custody := r.custody - {s}, ram := KeptKeys(r.ram, {s}))
  }

  function Run(r: Runtime, steps: seq<Step>): Runtime
    decreases |steps|
  {
    if steps == [] then r else Run(After(r, steps[0]), steps[1..])
  }

  ghost predicate EnabledRun(r: Runtime, steps: seq<Step>)
    decreases |steps|
  {
    steps != [] ==> Enabled(r, steps[0]) && EnabledRun(After(r, steps[0]), steps[1..])
  }

  /** Subscriptions, workers and chart memory agree. */
  ghost predicate InStep(r: Runtime) {
    && r.universe.Clean()
    && r.workers == PySeq.Elements(r.universe.subscribed)
    && RamIsHeld(r)
  }

  /** Chart memory is held only for a worker's timeframes or a symbol in custody. */
  ghost predicate RamIsHeld(r: Runtime) {
    forall k :: k in r.ram ==> (k.symbol in r.workers && k.timeframe in r.timeframes) || k.symbol in r.custody
  }

  lemma SyncedIsInStep(r: Runtime, u: Universe)
    requires RamIsHeld(r) && u.Clean()
    ensures InStep(Synced(r, u))
  {
    CleanListUnchanged(u.subscribed);
    NormalizedUniqueIs(u.subscribed);
  }

  /** The runtime as it is built: the watch list is subscribed, no worker exists yet. */
  function Built(watch: seq<string>, timeframes: set<string>): Runtime {
    Runtime(Universe([], NormalizedUnique(watch), NormalizedUnique(watch)), {}, {}, {}, timeframes, Idle)
  }

  /** The catalog the runtime reads first brings it in step. */
  lemma StartupIsInStep(watch: seq<string>, timeframes: set<string>, catalog: seq<string>)
    ensures InStep(After(Built(watch, timeframes), CatalogStep(catalog)))
  {
    var r := Built(watch, timeframes);
    NormalizedUniqueIsClean(watch);
    CatalogStaysClean(r.universe, catalog);
    SyncedIsInStep(r, r.universe.(catalog := NormalizedUnique(catalog)).Reconciled());
  }

  lemma MutationsStayClean(u: Universe, s: string, raw: seq<string>)
    requires u.Clean()
    ensures u.Subscribe(s).Clean() && u.Unsubscribe(s).Clean()
    ensures u.Replace(raw).Clean() && u.BootstrapFrom(raw).Clean()
  {
    Symbols.NormalizeIdempotent(s);
    NormalizedUniqueIsClean(raw);
    WithinIsClean(u.subscribed, PySeq.Elements(u.subscribed) - {Symbols.Normalize(s)});
    WithinIsClean(NormalizedUnique(raw), PySeq.Elements(u.catalog));
  }

  lemma CatalogStaysClean(u: Universe, raw: seq<string>)
    requires u.Clean()
    ensures u.(catalog := NormalizedUnique(raw)).Reconciled().Clean()
  {
    NormalizedUniqueIsClean(raw);
    WithinIsClean(u.subscribed, PySeq.Elements(NormalizedUnique(raw)));
  }

  lemma ActivityStaysClean(u: Universe, raw: seq<string>)
    requires u.Clean()
    ensures u.Following(raw).Clean()
  {
    NormalizedUniqueIsClean(raw);
    var missing := Named(raw) - PySeq.Elements(u.subscribed);
    WithinIsClean(NormalizedUnique(raw), missing);
    CleanAppend(u.subscribed, Within(NormalizedUnique(raw), missing));
  }

  lemma CleanAppend(a: seq<string>, b: seq<string>)
    requires CleanList(a) && CleanList(b)
    requires forall x :: x in b ==> x !in PySeq.Elements(a)
    ensures CleanList(a + b)
  {
    var c := a + b;
    forall i, j | 0 <= i < j < |c| ensures c[i] != c[j] {
      if i < |a| <= j { assert b[j - |a|] in b; }
    }
  }

  lemma StepStaysInStep(r: Runtime, st: Step)
    requires InStep(r) && Enabled(r, st)
    ensures InStep(After(r, st))
  {
    match st
    case SubscribeStep(s) =>
      MutationsStayClean(r.universe, s, []);
      SyncedIsInStep(r, r.universe.Subscribe(s));
    case UnsubscribeStep(s) =>
      MutationsStayClean(r.universe, s, []);
      SyncedIsInStep(r, r.universe.Unsubscribe(s));
    case ReplaceStep(raw) =>
      MutationsStayClean(r.universe, "", raw);
      SyncedIsInStep(r, r.universe.Replace(raw));
    case BootstrapStep(raw) =>
      MutationsStayClean(r.universe, "", raw);
      SyncedIsInStep(r, r.universe.BootstrapFrom(raw));
    case CatalogStep(raw) =>
      CatalogStaysClean(r.universe, raw);
      SyncedIsInStep(r, r.universe.(catalog := NormalizedUnique(raw)).Reconciled());
    case ActivityStep(raw) =>
      ActivityStaysClean(r.universe, raw);
      SyncedIsInStep(r, r.universe.Following(raw));
    case _ =>
  }

  /** However polls, subscription changes and custody interleave, the subscribed list has no
      duplicates, the workers are exactly its symbols, and chart memory is held only for a
      current worker's timeframes or a symbol in custody. */
  lemma {:induction false} RunStaysInStep(r: Runtime, steps: seq<Step>)
    requires InStep(r) && EnabledRun(r, steps)
    ensures InStep(Run(r, steps))
    decreases |steps|
  {
    if steps != [] {
      StepStaysInStep(r, steps[0]);
      RunStaysInStep(After(r, steps[0]), steps[1..]);
    }
  }

  /** So it is from the first catalog on. */
  lemma RunFromStartupStaysInStep(watch: seq<string>, timeframes: set<string>, catalog: seq<string>, steps: seq<Step>)
    requires EnabledRun(After(Built(watch, timeframes), CatalogStep(catalog)), steps)
    ensures InStep(Run(Built(watch, timeframes), [CatalogStep(catalog)] + steps))
  {
    StartupIsInStep(watch, timeframes, catalog);
    RunStaysInStep(After(Built(watch, timeframes), CatalogStep(catalog)), steps);
    assert ([CatalogStep(catalog)] + steps)[1..] == steps;
  }

  /** A symbol dropped while its fetch is in flight stays dropped: whatever runs before the
      snapshot arrives, no memory is held for a symbol that is neither subscribed nor in custody. */
  lemma LateSnapshotRevivesNothing(r: Runtime, steps: seq<Step>, s: string)
    requires InStep(r) && EnabledRun(r, steps)
    ensures var end := Run(r, steps);
      s !in end.universe.subscribed && s !in end.custody ==> forall k :: k in end.ram ==> k.symbol != s
  {
    RunStaysInStep(r, steps);
    var end := Run(r, steps);
    assert s in PySeq.Elements(end.universe.subscribed) <==> s in end.universe.subscribed;
  }

  /** Every symbol with open business is followed, in the catalog or not. */
  lemma ActivityIsFollowed(r: Runtime, raw: seq<string>)
    requires InStep(r)
    ensures Named(raw) <= After(r, ActivityStep(raw)).workers
    ensures r.workers <= After(r, ActivityStep(raw)).workers
  {
    StepStaysInStep(r, ActivityStep(raw));
    FollowingFollows(r.universe, raw);
    assert After(r, ActivityStep(raw)).universe == r.universe.Following(raw);
  }

  lemma FollowingFollows(u: Universe, raw: seq<string>)
    ensures Named(raw) + PySeq.Elements(u.subscribed) <= PySeq.Elements(u.Following(raw).subscribed)
  {
    NormalizedUniqueIsClean(raw);
    forall s | s in Named(raw) && s !in PySeq.Elements(u.subscribed) ensures s in u.Following(raw).subscribed {
      assert s in Within(NormalizedUnique(raw), Named(raw) - PySeq.Elements(u.subscribed));
    }
  }

  // ---- One symbol through a run ----

  /** All that the subscriptions say of one symbol: whether the catalog would accept it, and
      whether it is followed. */
  datatype Fate = Fate(accepted: bool, followed: bool)

  function FateOf(r: Runtime, x: string): Fate {
    Fate(r.universe.catalog == [] || x in r.universe.catalog, x in r.universe.subscribed)
  }

  /** What one step makes of it, without looking at any other symbol. */
  function FateAfter(f: Fate, x: string, st: Step): Fate {
    match st
    case SubscribeStep(s) => f.(followed := f.followed || (f.accepted && Symbols.Normalize(s) == x))
    case UnsubscribeStep(s) => f.(followed := f.followed && Symbols.Normalize(s) != x)
    case ReplaceStep(raw) => f.(followed := f.accepted && x in Named(raw))
    case BootstrapStep(raw) => f.(followed := f.accepted && x in Named(raw))
    case CatalogStep(raw) =>
      var accepted := Named(raw) == {} || x in Named(raw);
      Fate(accepted, f.followed && accepted)
    case ActivityStep(raw) => f.(followed := f.followed || x in Named(raw))
    case _ => f
  }

  function FateAtEnd(f: Fate, x: string, steps: seq<Step>): Fate
    decreases |steps|
  {
    if steps == [] then f else FateAtEnd(FateAfter(f, x, steps[0]), x, steps[1..])
  }

  lemma NamedIsListed(raw: seq<string>, x: string)
    ensures x in NormalizedUnique(raw) <==> x in Named(raw)
    ensures NormalizedUnique(raw) == [] <==> Named(raw) == {}
  {
    NormalizedUniqueIsClean(raw);
    if NormalizedUnique(raw) != [] { assert NormalizedUnique(raw)[0] in Named(raw); }
    NormalizedUniqueIs(raw);
  }

  lemma SubscribeFate(u: Universe, s: string, x: string)
    requires Symbols.Tradable(x)
    ensures x in u.Subscribe(s).subscribed <==>
      x in u.subscribed || ((u.catalog == [] || x in u.catalog) && Symbols.Normalize(s) == x)
    ensures x in u.Unsubscribe(s).subscribed <==> x in u.subscribed && Symbols.Normalize(s) != x
    ensures u.Subscribe(s).catalog == u.catalog == u.Unsubscribe(s).catalog
  {
    Symbols.NormalizeIdempotent(s);
    assert x in PySeq.Elements(u.subscribed) <==> x in u.subscribed;
  }

  lemma ListFate(u: Universe, raw: seq<string>, x: string)
    ensures x in u.Accepted(raw) <==> (u.catalog == [] || x in u.catalog) && x in Named(raw)
    ensures x in u.Following(raw).subscribed <==> x in u.subscribed || x in Named(raw)
    ensures u.Following(raw).catalog == u.catalog
  {
    NamedIsListed(raw, x);
    assert x in PySeq.Elements(u.catalog) <==> x in u.catalog;
    assert x in PySeq.Elements(u.subscribed) <==> x in u.subscribed;
  }

  lemma CatalogFate(u: Universe, raw: seq<string>, x: string)
    ensures var v := u.(catalog := NormalizedUnique(raw)).Reconciled();
      && v.catalog == NormalizedUnique(raw)
      && (x in v.subscribed <==> x in u.subscribed && (Named(raw) == {} || x in Named(raw)))
  {
    NamedIsListed(raw, x);
    assert x in PySeq.Elements(NormalizedUnique(raw)) <==> x in NormalizedUnique(raw);
  }

  lemma StepFate(r: Runtime, st: Step, x: string)
    requires Symbols.Tradable(x)
    ensures FateOf(After(r, st), x) == FateAfter(FateOf(r, x), x, st)
  {
    match st
    case SubscribeStep(s) => SubscribeFate(r.universe, s, x);
    case UnsubscribeStep(s) => SubscribeFate(r.universe, s, x);
    case ReplaceStep(raw) => ListFate(r.universe, raw, x);
    case BootstrapStep(raw) => ListFate(r.universe, raw, x);
    case CatalogStep(raw) =>
      CatalogFate(r.universe, raw, x);
      NamedIsListed(raw, x);
    case ActivityStep(raw) => ListFate(r.universe, raw, x);
    case _ =>
  }

  /** Over any run, whether a symbol is followed depends only on the steps as they bear on that
      symbol, however polls, custody and the other symbols interleave. */
  lemma {:induction false} RunFate(r: Runtime, steps: seq<Step>, x: string)
    requires Symbols.Tradable(x)
    ensures FateOf(Run(r, steps), x) == FateAtEnd(FateOf(r, x), x, steps)
    decreases |steps|
  {
    if steps != [] {
      StepFate(r, steps[0], x);
      RunFate(After(r, steps[0]), steps[1..], x);
    }
  }

  /** So whether it has a worker in the end can be told from its own history alone. */
  lemma WorkerFate(r: Runtime, steps: seq<Step>, x: string)
    requires InStep(r) && EnabledRun(r, steps) && Symbols.Tradable(x)
    ensures x in Run(r, steps).workers <==> FateAtEnd(FateOf(r, x), x, steps).followed
  {
    RunStaysInStep(r, steps);
    RunFate(r, steps, x);
    var end := Run(r, steps);
    assert x in PySeq.Elements(end.universe.subscribed) <==> x in end.universe.subscribed;
  }

  /** What is followed keeps its place: subscribing and following business only append. */
  lemma FollowingAppends(r: Runtime, s: string, raw: seq<string>)
    ensures r.universe.subscribed <= After(r, SubscribeStep(s)).universe.subscribed
    ensures r.universe.subscribed <= After(r, ActivityStep(raw)).universe.subscribed
  {
  }

  // ---- One window through a run ----

  /** A snapshot that has arrived for a symbol is stored exactly if the symbol is followed and the
      timeframe is watched, and no other window comes or goes with it. */
  lemma ArrivedIsStoredIff(r: Runtime, k: Key, l: Key)
    requires InStep(r) && r.poll.Arrived? && r.poll.snapshot == k && Symbols.Tradable(k.symbol)
    ensures l in After(r, PollApply).ram <==>
      l in r.ram
      || (l == KeyOf(k.symbol, k.timeframe) && k.symbol in r.universe.subscribed && Symbols.Upper(k.timeframe) in r.timeframes)
  {
    NormalIsUpper(k.symbol);
    assert k.symbol in PySeq.Elements(r.universe.subscribed) <==> k.symbol in r.universe.subscribed;
  }

  /** The step drops the worker of symbol s, or ends its custody. */
  predicate Drops(r: Runtime, st: Step, s: string) {
    (s in r.workers && s !in After(r, st).workers) || st == CustodyStop(s)
  }

  lemma StepHoldsIff(r: Runtime, st: Step, k: Key)
    requires k in r.ram
    ensures k in After(r, st).ram <==> !Drops(r, st, k.symbol)
  {
  }

  /** The window is held before and after every step of the run. */
  predicate AlwaysHeld(r: Runtime, steps: seq<Step>, k: Key)
    decreases |steps|
  {
    k in r.ram && (steps != [] ==> AlwaysHeld(After(r, steps[0]), steps[1..], k))
  }

  predicate NeverDropped(r: Runtime, steps: seq<Step>, s: string)
    decreases |steps|
  {
    steps != [] ==> !Drops(r, steps[0], s) && NeverDropped(After(r, steps[0]), steps[1..], s)
  }

  /** A window stays in chart memory through a run exactly if the worker of its symbol is not
      dropped in it and no custody of the symbol ends. */
  lemma {:induction false} RunHoldsIff(r: Runtime, steps: seq<Step>, k: Key)
    requires k in r.ram
    ensures AlwaysHeld(r, steps, k) <==> NeverDropped(r, steps, k.symbol)
    decreases |steps|
  {
    if steps != [] {
      StepHoldsIff(r, steps[0], k);
      if k in After(r, steps[0]).ram { RunHoldsIff(After(r, steps[0]), steps[1..], k); }
    }
  }

  /** In every run only names in normal form are followed, never one that serves as context. */
  lemma ContextIsNeverFollowed(r: Runtime, steps: seq<Step>, x: string)
    requires InStep(r) && EnabledRun(r, steps) && x in Run(r, steps).universe.subscribed
    ensures Symbols.Normalize(x) == x && x !in {"", "VIX", "USDOLLAR"}
  {
    RunStaysInStep(r, steps);
    var end := Run(r, steps);
    var i :| 0 <= i < |end.universe.subscribed| && end.universe.subscribed[i] == x;
  }

  /** Every other such name a list holds is one it stands for. */
  lemma OthersAreNamed(raw: seq<string>, x: string)
    requires Symbols.Normalize(x) == x && x !in {"", "VIX", "USDOLLAR"} && x in raw
    ensures x in Named(raw) && x in NormalizedUnique(raw)
  {
    NamedIsListed(raw, x);
  }
}
