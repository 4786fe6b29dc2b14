/** The service methods that change subscriptions and apply snapshots, as steps of the runtime. */
module ChartService {
  import opened Subscriptions
  import opened MarketState
  import opened ChartRegistry
  import opened ChartRuntime
  import PySeq
  import Symbols

  /** What the interleavings of `ChartRuntime` see of the service's objects. */
  ghost function ViewOf(subs: SubscriptionManager, registry: ChartRegistry, custody: set<string>, poll: Poll): Runtime
    reads subs, registry, registry.market
  {
    Runtime(subs.View(), registry.workers.Keys, registry.market.states.Keys, custody, registry.timeframes, poll)
  }

  ghost predicate Ready(subs: SubscriptionManager, registry: ChartRegistry)
    reads subs, registry, registry.market
  {
    subs.Valid() && registry.Valid()
  }

  lemma SyncedKeys<V>(ram: map<Key, V>, dropped: set<string>)
    ensures SyncedRam(ram, dropped).Keys == KeptKeys(ram.Keys, dropped)
  {
  }

  /** Every change of the subscriptions ends with this: a sync is what `Synced` says. */
  method Sync(subs: SubscriptionManager, registry: ChartRegistry, ghost before: Runtime)
    requires Ready(subs, registry)
    requires before.workers == registry.workers.Keys && before.ram == registry.market.states.Keys
    requires before.timeframes == registry.timeframes
    modifies registry, registry.market
    ensures Ready(subs, registry)
    ensures ViewOf(subs, registry, before.custody, before.poll) == Synced(before, subs.View())
  {
    ghost var ram := registry.market.states;
    var created, removed := registry.SyncWorkers(subs.subscribedUniverse);
    SyncedKeys(ram, removed);
  }

  /** `subscribe_symbol`. */
  method SubscribeSymbol(subs: SubscriptionManager, registry: ChartRegistry, symbol: string,
                         ghost custody: set<string>, ghost poll: Poll)
    returns (changed: bool)
    requires Ready(subs, registry)
    modifies subs, registry, registry.market
    ensures Ready(subs, registry)
    ensures ViewOf(subs, registry, custody, poll) == After(old(ViewOf(subs, registry, custody, poll)), SubscribeStep(symbol))
  {
    ghost var before := ViewOf(subs, registry, custody, poll);
    changed := subs.Subscribe(symbol);
    if !changed { return; }
    Sync(subs, registry, before);
  }

  /** `unsubscribe_symbol`. */
  method UnsubscribeSymbol(subs: SubscriptionManager, registry: ChartRegistry, symbol: string,
                           ghost custody: set<string>, ghost poll: Poll)
    returns (changed: bool)
    requires Ready(subs, registry)
    modifies subs, registry, registry.market
    ensures Ready(subs, registry)
    ensures ViewOf(subs, registry, custody, poll) == After(old(ViewOf(subs, registry, custody, poll)), UnsubscribeStep(symbol))
  {
    ghost var before := ViewOf(subs, registry, custody, poll);
    ghost var universe := subs.View();
    changed := subs.Unsubscribe(symbol);
    if !changed {
      NotFollowedIsKept(universe, symbol);
      return;
    }
    Sync(subs, registry, before);
  }

  lemma NotFollowedIsKept(u: Universe, symbol: string)
    requires Symbols.Normalize(symbol) !in u.subscribed
    ensures u.Unsubscribe(symbol) == u
  {
    WithinAll(u.subscribed, PySeq.Elements(u.subscribed) - {Symbols.Normalize(symbol)});
  }

  /** `replace_subscribed_universe`. */
  method ReplaceUniverse(subs: SubscriptionManager, registry: ChartRegistry, symbols: seq<string>,
                         ghost custody: set<string>, ghost poll: Poll)
    requires Ready(subs, registry)
    modifies subs, registry, registry.market
    ensures Ready(subs, registry)
    ensures ViewOf(subs, registry, custody, poll) == After(old(ViewOf(subs, registry, custody, poll)), ReplaceStep(symbols))
  {
    ghost var before := ViewOf(subs, registry, custody, poll);
    subs.ReplaceSubscribedUniverse(symbols);
    Sync(subs, registry, before);
  }

  method AdoptCatalog(subs: SubscriptionManager, catalog: seq<string>)
    requires subs.Valid()
    modifies subs
    ensures subs.Valid()
    ensures subs.View() == old(subs.View()).(catalog := NormalizedUnique(catalog)).Reconciled()
  {
    subs.SetCatalogUniverse(catalog);
    var removed := subs.ReconcileSubscriptionsWithCatalog();
  }

  /** `_refresh_symbol_catalog`, from the catalog the broker returned. */
  method RefreshCatalog(subs: SubscriptionManager, registry: ChartRegistry, catalog: seq<string>,
                        ghost custody: set<string>, ghost poll: Poll)
    requires Ready(subs, registry)
    modifies subs, registry, registry.market
    ensures Ready(subs, registry)
    ensures ViewOf(subs, registry, custody, poll) == After(old(ViewOf(subs, registry, custody, poll)), CatalogStep(catalog))
  {
    ghost var before := ViewOf(subs, registry, custody, poll);
    AdoptCatalog(subs, catalog);
    Sync(subs, registry, before);
  }

  /** `_initialize_bootstrap_universe`. */
  method InitializeBootstrap(subs: SubscriptionManager, registry: ChartRegistry, symbols: seq<string>,
                             ghost custody: set<string>, ghost poll: Poll)
    requires Ready(subs, registry)
    modifies subs, registry, registry.market
    ensures Ready(subs, registry)
    ensures ViewOf(subs, registry, custody, poll) == After(old(ViewOf(subs, registry, custody, poll)), BootstrapStep(symbols))
  {
    ghost var before := ViewOf(subs, registry, custody, poll);
    var rejected := subs.BootstrapFromEnv(symbols);
    Sync(subs, registry, before);
  }

  /** `_ensure_account_activity_symbols_subscribed`, from the symbols with open business. */
  method FollowActivity(subs: SubscriptionManager, registry: ChartRegistry, activity: seq<string>,
                        ghost custody: set<string>, ghost poll: Poll)
    returns (changed: seq<string>)
    requires Ready(subs, registry)
    modifies subs, registry, registry.market
    ensures Ready(subs, registry)
    ensures ViewOf(subs, registry, custody, poll) == After(old(ViewOf(subs, registry, custody, poll)), ActivityStep(activity))
  {
    ghost var before := ViewOf(subs, registry, custody, poll);
    changed := subs.EnsureSubscribed(activity);
    if changed == [] { return; }
    Sync(subs, registry, before);
  }

  /** The second half of one fetch: the snapshot that arrived is applied or ignored. */
  method ApplyFetched(subs: SubscriptionManager, registry: ChartRegistry, snapshot: Snapshot,
                      ghost custody: set<string>, ghost todo: seq<Key>)
    returns (applied: bool)
    requires Ready(subs, registry)
    modifies registry.market
    ensures Ready(subs, registry)
    ensures ViewOf(subs, registry, custody, AfterFetch(todo)) ==
      After(old(ViewOf(subs, registry, custody, Arrived(Key(snapshot.symbol, snapshot.timeframe), todo))), PollApply)
  {
    applied := registry.ApplySnapshot(snapshot);
  }
}
