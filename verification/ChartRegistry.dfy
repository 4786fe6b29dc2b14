/** The chart workers, one per subscribed symbol, and the chart memory they fill. */
module ChartRegistry {
  import opened MarketState
  import opened Subscriptions
  import PySeq
  import Symbols

  /** The keys of chart memory that are left when symbols are dropped. */
  function KeptKeys(keys: set<Key>, dropped: set<string>): set<Key> {
    set k | k in keys && k.symbol !in dropped
  }

  /** What a sync leaves in chart memory: the windows of dropped workers go. */
  function SyncedRam<V>(ram: map<Key, V>, dropped: set<string>): map<Key, V> {
    map k | k in KeptKeys(ram.Keys, dropped) :: ram[k]
  }

  /** Whether a snapshot reaches a worker: the worker is found under the normalised symbol and
      then compares the symbol as it was sent. */
  predicate Reaches(workers: set<string>, timeframes: set<string>, k: Key) {
    && Symbols.Normalize(k.symbol) in workers
    && Symbols.Upper(k.symbol) == Symbols.Normalize(k.symbol)
    && Symbols.Upper(k.timeframe) in timeframes
  }

  lemma NormalIsUpper(s: string)
    requires Symbols.Normalize(s) == s
    ensures Symbols.Upper(s) == s
  {
    Symbols.UpperIdempotent(Symbols.Strip(s));
  }

  /** One chart worker instance: its symbol and when it was built. */
  datatype Worker = Worker(symbol: string, serial: nat)

  predicate Serves(workers: map<string, Worker>, s: string) {
    s in workers
  }

  ghost predicate WorkersOk(workers: map<string, Worker>, built: nat) {
    forall s {:trigger Serves(workers, s)} :: Serves(workers, s) ==>
      Symbols.Tradable(s) && workers[s].symbol == s && workers[s].serial < built
  }

  lemma WorkerIs(workers: map<string, Worker>, built: nat, s: string)
    requires WorkersOk(workers, built) && s in workers
    ensures Symbols.Tradable(s) && s != "" && Symbols.Upper(s) == s
    ensures workers[s].symbol == s
  {
    assert Serves(workers, s);
    NormalIsUpper(s);
  }

  lemma WithoutWorker(workers: map<string, Worker>, built: nat, s: string)
    requires WorkersOk(workers, built)
    ensures WorkersOk(workers - {s}, built)
  {
    var after := workers - {s};
    forall x | Serves(after, x) ensures Symbols.Tradable(x) && after[x].symbol == x && after[x].serial < built {
      assert Serves(workers, x);
    }
  }

  lemma WithWorker(workers: map<string, Worker>, built: nat, s: string)
    requires WorkersOk(workers, built) && Symbols.Tradable(s)
    ensures WorkersOk(workers[s := Worker(s, built)], built + 1)
  {
    var after := workers[s := Worker(s, built)];
    forall x | Serves(after, x) ensures Symbols.Tradable(x) && after[x].symbol == x && after[x].serial < built + 1 {
      assert x != s ==> Serves(workers, x);
    }
  }

  class ChartRegistry {
    const market: MarketStateService
    const timeframes: set<string>
    var workers: map<string, Worker>
    var built: nat

    ghost predicate Valid()
      reads this, market
    {
      market.Valid() && market.maxBars >= 0 && WorkersOk(workers, built)
    }

    constructor (market: MarketStateService, watch: seq<string>)
      requires market.Valid() && market.maxBars >= 0
      ensures Valid() && this.market == market && workers == map[]
      ensures timeframes == set t | t in watch :: Symbols.Upper(t)
    {
      this.market := market;
      timeframes := set t | t in watch :: Symbols.Upper(t);
      workers, built := map[], 0;
    }

    /** `sync_workers`: afterwards the workers are exactly the listed symbols; survivors are the
        same instances, new ones are new, and the memory of dropped ones is freed. */
    method SyncWorkers(subscribed: seq<string>) returns (created: set<string>, removed: set<string>)
      requires Valid()
      modifies this, market
      ensures Valid()
      ensures workers.Keys == Named(subscribed)
      ensures forall s :: s in workers && s in old(workers) ==> workers[s] == old(workers)[s]
      ensures forall s :: s in workers && s !in old(workers) ==> workers[s].serial >= old(built)
      ensures removed == old(workers).Keys - Named(subscribed)
      ensures created == Named(subscribed) - old(workers).Keys
      ensures market.states == SyncedRam(old(market.states), removed)
    {
      var wanted := NormalizeUniqueSymbols(subscribed);
      NormalizedUniqueIs(subscribed);
      NamedIsTradable(subscribed);
      removed := DropWorkers(PySeq.Elements(wanted));
      created := BuildWorkers(wanted);
    }

    /** The first loop of a sync. */
    method DropWorkers(newSet: set<string>) returns (removed: set<string>)
      requires Valid()
      modifies this, market
      ensures Valid() && workers == old(workers) - removed && built == old(built)
      ensures removed == old(workers).Keys - newSet
      ensures market.states == SyncedRam(old(market.states), removed)
    {
      ghost var ram, all := market.states, workers;
      removed := {};
      var todo := workers.Keys;
      assert Dropped(all, ram, workers, market.states, {});
      while todo != {}
        invariant Valid() && built == old(built)
        invariant todo <= all.Keys && todo !! removed && removed == (all.Keys - newSet) - todo
        invariant Dropped(all, ram, workers, market.states, removed)
        decreases |todo|
      {
        var symbol :| symbol in todo;
        todo := todo - {symbol};
        if symbol in newSet { continue; }
        DropWorker(symbol);
        OneMoreDropped(all, ram, removed, symbol);
        removed := removed + {symbol};
      }
    }

    /** Pops one worker and frees its windows. */
    method DropWorker(symbol: string)
      requires Valid() && symbol in workers
      modifies this, market
      ensures Valid() && workers == old(workers) - {symbol} && built == old(built)
      ensures market.states == SyncedRam(old(market.states), {symbol})
    {
      WorkerIs(workers, built, symbol);
      WithoutWorker(workers, built, symbol);
      workers := workers - {symbol};
      var _ := market.RemoveSymbol(symbol);
    }

    /** The second loop of a sync. */
    method BuildWorkers(wanted: seq<string>) returns (created: set<string>)
      requires Valid() && forall s :: s in PySeq.Elements(wanted) ==> Symbols.Tradable(s)
      requires workers.Keys <= PySeq.Elements(wanted)
      modifies this
      ensures Valid() && workers.Keys == PySeq.Elements(wanted)
      ensures forall s :: s in old(workers) ==> workers[s] == old(workers)[s]
      ensures forall s :: s in workers && s !in old(workers) ==> workers[s].serial >= old(built)
      ensures created == PySeq.Elements(wanted) - old(workers).Keys
    {
      created := {};
      for i := 0 to |wanted|
        invariant WorkersOk(workers, built) && built >= old(built)
        invariant workers.Keys == old(workers).Keys + PySeq.Elements(wanted[..i])
        invariant forall s :: s in old(workers) ==> workers[s] == old(workers)[s]
        invariant forall s :: s in workers && s !in old(workers) ==> workers[s].serial >= old(built)
        invariant created == PySeq.Elements(wanted[..i]) - old(workers).Keys
      {
        var symbol := wanted[i];
        assert wanted[..i + 1] == wanted[..i] + [symbol];
        PySeq.ElementsAppend(wanted[..i], symbol);
        if symbol in workers { continue; }
        assert symbol in PySeq.Elements(wanted);
        WithWorker(workers, built, symbol);
        workers, built, created := workers[symbol := Worker(symbol, built)], built + 1, created + {symbol};
      }
      assert wanted[..|wanted|] == wanted;
    }

    /** `apply_snapshot`: a snapshot is stored only if a worker for its symbol still exists. */
    method ApplySnapshot(s: Snapshot) returns (applied: bool)
      requires Valid()
      modifies market
      ensures Valid()
      ensures applied <==> Reaches(workers.Keys, timeframes, Key(s.symbol, s.timeframe))
      ensures !applied ==> market.states == old(market.states) && market.history == old(market.history)
      ensures applied ==>
        var k := KeyOf(s.symbol, s.timeframe);
        var seen := HistoryOf(old(market.history), k) + Incoming(s);
        && market.history == old(market.history)[k := seen]
        && market.states == old(market.states)[k := Rolling(seen, market.maxBars)]
    {
      var symbol := Symbols.Normalize(s.symbol);
      if symbol in workers { WorkerIs(workers, built, symbol); }
      if symbol == "" || symbol !in workers { return false; }
      var worker := workers[symbol];
      if Symbols.Upper(s.symbol) != worker.symbol || Symbols.Upper(s.timeframe) !in timeframes { return false; }
      var raised := market.IngestSnapshot(s);
      assert !raised;
      applied := true;
    }
  }

  /** The workers and the chart memory once `gone` are dropped. */
  ghost predicate Dropped<V>(all: map<string, Worker>, ram: map<Key, V>, workers: map<string, Worker>, states: map<Key, V>,
                             gone: set<string>) {
    workers == all - gone && states == SyncedRam(ram, gone)
  }

  lemma OneMoreDropped<V>(all: map<string, Worker>, ram: map<Key, V>, gone: set<string>, s: string)
    ensures Dropped(all, ram, (all - gone) - {s}, SyncedRam(SyncedRam(ram, gone), {s}), gone + {s})
  {
    SyncedRamTwice(ram, gone, {s});
    MinusTwice(all, gone, {s});
  }

  lemma MinusTwice<V>(m: map<string, V>, a: set<string>, b: set<string>)
    ensures (m - a) - b == m - (a + b)
  {
  }

  lemma SyncedRamTwice<V>(ram: map<Key, V>, a: set<string>, b: set<string>)
    ensures SyncedRam(SyncedRam(ram, a), b) == SyncedRam(ram, a + b)
  {
  }
}
