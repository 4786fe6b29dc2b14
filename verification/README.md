# Model of the MT5 bridge core in Dafny

The bridge connects one broker account to two trading desks, "fast" and "smc". This project models
the parts of it that hold state or arithmetic, and proves what they keep over whole runs:

- who owns which broker ticket, through reconcile passes, reassignments and fills, and what each desk is shown
  (`Ownership`, `OwnershipRegistry`, `OwnershipLaws`, `TicketFates`, `DeskViews`);
- the bounded candle window, the subscription list, the chart workers and the memory they fill while polls
  interleave (`CandleWindow`, `MarketState`, `Subscriptions`, `ChartRegistry`, `ChartRuntime`, `ChartService`);
- the risk allocator, the entry gate with what its limits let desks, account and symbols come to hold, and the fast
  desk's own entry policy (`Rounding`, `RiskLimits`, `RiskKernel`, `EntryGate`, `GateCapacity`, `EntryPolicy`);
- alignment, returns, the Pearson coefficient, the pair matrix and the conflict policy on top of it (`Aligner`,
  `Pearson`, `CorrelationMatrix`, `ConflictPolicy`);
- the activity rings, the fast desk's worker reconciliation and the smc desk's event queue (`ActivityLog`, `PollRuns`,
  `FastDesk`, `SmcDispatch`).

Objects whose methods change fields are classes; each method is proved against a function or predicate on values,
and the laws are lemmas about those. `Wrappers`, `PySeq`, `Symbols` and `Reals` hold what the rest shares.
`dafny verify dfyconfig.toml` checks everything.

## What the code does not do

These are places where a law one would expect fails, or where comments and code disagree; the model follows the code.

- Merging step by step agrees with merging at once only for bounds that are not negative
  (`CandleWindow.MergeLawNeedsNonNegativeBound`). Ingesting never gets there: it raises for a negative bound first.
- The position loop of a reconcile pass also looks for an order row of the ticket; the order loop does not look for a
  position row. An smc position that has no order row, and that the broker lists as a pending order too, is therefore
  adopted by the fast desk (`OwnershipLaws.TicketStaysSmcIff`, `OwnershipLaws.OrderlessPositionIsAdoptedByFast`); one
  whose order row is still within the retention is not (`OwnershipLaws.RetainedOrderStaysSmc`). Over runs,
  `OwnershipLaws.RunStaysSmcIff` says exactly when a ticket stays with smc.
- A profile of 0 is clamped to 2, not to 1 (`RiskLimits.ClampProfile`).
- Position limits are not kept in general, since fills ask nobody; with the default settings the fast desk can hold five
  positions under a limit of three (`GateCapacity.DefaultsOvershoot`), and under an account cap of one a single symbol can come to
  hold four (`GateCapacity.CapOfOneOvershoots`). How many positions a desk, the account or a symbol can reach is computed
  from the limits (`GateCapacity.DeskLimitKeptIff`, `GateCapacity.AccountLimitKeptIff`,
  `GateCapacity.SymbolLimitKeptIff`); operations opened past the gate come on top (`EntryGate.RunStaysWithin`).
- A tripped kill switch stops nothing if the switch is not enabled (`EntryGate.DisabledSwitchIsIdle`).
- The budgets of the two desks can exceed a whole cap (`RiskLimits.CapOfOneIsExceeded`): exactly if the cap is below one,
  or its split overallots it and neither desk's profile asks for less than its slots (`RiskLimits.PositionsExceedIff`,
  `RiskLimits.PendingExceedIff`).
- A usage count reported as 0 is replaced by the length of the list (`RiskKernel.CountOr`).
- The concentration check blocks at 70 % and above; its comment says above 70 %.
- Pairs are stored in list order; the comment says in lexicographic order.
- A poll of the trace ring takes its lock twice, and is exact only if nothing is emitted between
  (`ActivityLog.PollIsExactIff`). `PollRuns` says which traces a reader then loses and which it gets twice.
- A position whose `side` is present but blank is not given its `direction` instead, so the conflict check skips it.
- A symbol that leaves transient custody because it may be entered again loses its chart memory
  (`FastDesk.EntryMemoryFreedIff`).
- A symbol that has not been analysed counts as analysed at loop time 0, so with a clock below the cooldown its
  first events are dropped (`SmcDispatch.RunsInEveryRun`).
- The scanner runs in a worker thread and marks a symbol only after queueing its event. If the loop finishes with the
  event in between, and only then, the symbol stays barred for good (`SmcDispatch.SticksIff`,
  `SmcDispatch.NothingStuckIff`, `SmcDispatch.StuckForever`).

## Model

| member | source | states |
|---|---|---|
| OwnershipRegistry.OwnershipRegistry.ReconcileFromCaches | src/heuristic_mt5_bridge/core/ownership/registry.py:217-503 | One pass over the four broker lists turns the table into `Reconciled` of the old table, row for row, and returns exactly the seven counts of `Counted`; the table stays well formed |
| OwnershipRegistry.OwnershipRegistry.TakePositions | src/heuristic_mt5_bridge/core/ownership/registry.py:263-356 | Looking at the position tickets one after the other has the effect of taking them all in at once, and counts each adopted ticket once |
| OwnershipRegistry.OwnershipRegistry.TakeOrders | src/heuristic_mt5_bridge/core/ownership/registry.py:358-412 | The same for pending orders, which are looked up by order ticket only, after all positions |
| OwnershipRegistry.OwnershipRegistry.SettleAll | src/heuristic_mt5_bridge/core/ownership/registry.py:414-483 | The walk over the open rows settles every active row whose ticket is gone, once, and counts it under the state it reaches |
| OwnershipRegistry.OwnershipRegistry.GatherEvidence | src/heuristic_mt5_bridge/core/ownership/registry.py:226-256 | The ids with fill evidence and with cancel evidence are collected from deals and order history, positive ids only |
| OwnershipRegistry.OwnershipRegistry.TakePosition | src/heuristic_mt5_bridge/core/ownership/registry.py:264-356 | One position ticket: refresh its row, else promote the order row of the same ticket, else adopt it if adoption is on |
| OwnershipRegistry.OwnershipRegistry.TakeOrder | src/heuristic_mt5_bridge/core/ownership/registry.py:359-412 | One order ticket: refresh its row, else adopt it if adoption is on |
| OwnershipRegistry.OwnershipRegistry.SettleRow | src/heuristic_mt5_bridge/core/ownership/registry.py:415-483 | One open row: closed, filled or cancelled if its ticket is gone, and which of the three |
| OwnershipRegistry.OwnershipRegistry.Purge | src/heuristic_mt5_bridge/infra/storage/runtime_db.py:1620-1640 | Exactly the terminal rows last written before the deadline are deleted, and they are counted |
| OwnershipRegistry.OwnershipRegistry.Upsert | src/heuristic_mt5_bridge/infra/storage/runtime_db.py:1467-1545 | Insert or replace by key; refused exactly when another row holds the same position or order ticket |
| OwnershipRegistry.OwnershipRegistry.RegisterOwnedOperation | src/heuristic_mt5_bridge/core/ownership/registry.py:75-123 | A registered operation overwrites its own row with a fresh active one whose owner and status agree |
| OwnershipRegistry.OwnershipRegistry.RegisterFromExecutionResult | src/heuristic_mt5_bridge/core/ownership/registry.py:125-157 | An execution result registers its position ticket, or else its order ticket, under the executing desk; never both |
| OwnershipRegistry.OwnershipRegistry.Reassign | src/heuristic_mt5_bridge/core/ownership/registry.py:175-215 | Moves one row to a desk and sets its status to match; fails for a bad target, no ticket, no row, and for every move from smc to fast |
| OwnershipRegistry.OwnershipRegistry.ListOpen | src/heuristic_mt5_bridge/infra/storage/runtime_db.py:1588-1618 | Returns every active row once |
| OwnershipRegistry.ReconciledKeepsWellFormed | src/heuristic_mt5_bridge/core/ownership/registry.py:217-503 | Every row a pass leaves is stored under its own key, carries exactly the ticket of that key, and has a status that agrees with its owner |
| Ownership.ShapedNeverClashes | src/heuristic_mt5_bridge/infra/storage/runtime_db.py:464-498 | In a well-formed table no write of a row that carries its own ticket runs into the unique indexes |
| OwnershipLaws.PassStabilises | src/heuristic_mt5_bridge/core/ownership/registry.py:263-503 | From any table, one pass with adoption on makes the active position and order tickets equal the positive ids of the broker and the open count their total; with adoption off, exactly the known tickets among them |
| OwnershipLaws.OpenCountIsConserved | src/heuristic_mt5_bridge/core/ownership/registry.py:263-503 | Open after = open before + adopted + promoted + reactivated - closed - filled - cancelled, for every table and every pass |
| OwnershipLaws.PassIsIdempotent | src/heuristic_mt5_bridge/core/ownership/registry.py:217-503 | With the clock held, a second pass over the same lists changes no row and counts nothing |
| OwnershipLaws.PassIgnoresListOrder | src/heuristic_mt5_bridge/core/ownership/registry.py:226-256 | Neither the order of any of the four lists nor repetitions in them change what a pass does |
| OwnershipLaws.MissingOrderOutcome | src/heuristic_mt5_bridge/core/ownership/registry.py:435-475 | A missing pending order ends filled if and only if there is a deal or a filled history entry for it anywhere; cancel evidence never outweighs that |
| OwnershipLaws.RowForgottenIff | src/heuristic_mt5_bridge/core/ownership/registry.py:414-503 | A pass forgets a row exactly when its ticket is no longer reported and it was last written before the deadline, settling included |
| OwnershipLaws.SmcRowStaysSmc | src/heuristic_mt5_bridge/core/ownership/registry.py:263-356 | A row of the smc desk is a row of the smc desk after any pass that keeps it |
| OwnershipLaws.TicketStaysSmcIff | src/heuristic_mt5_bridge/core/ownership/registry.py:263-412 | An smc ticket stays smc through a pass if and only if the pass does not adopt the ticket as foreign: reported, and without the row by which its loop looks it up |
| OwnershipLaws.OrderlessPositionIsAdoptedByFast | src/heuristic_mt5_bridge/core/ownership/registry.py:358-406 | The case in which it does not: an smc position that has no order row, and whose ticket the broker also lists as a pending order, gets an order row of the fast desk |
| OwnershipLaws.RunStaysSmcIff | src/heuristic_mt5_bridge/core/ownership/registry.py:75-412 | Over every run of passes, reassignments and registrations, through fills, absences and reassignments, an smc ticket is smc before and after every step if and only if no pass of the run adopts it and no registration gives it to another desk |
| OwnershipLaws.RetainedOrderStaysSmc | src/heuristic_mt5_bridge/core/ownership/registry.py:175-503 | While the order row of an smc ticket is within the retention, the ticket stays smc through every run that registers it for no other desk, whatever the broker reports |
| OwnershipLaws.RetainedPositionStaysSmc | src/heuristic_mt5_bridge/core/ownership/registry.py:175-503 | So does a ticket with a position row within the retention, as a market entry has, in every run in which no pass that adopts lists the ticket as a pending order |
| OwnershipLaws.RunKeepsWellFormed | src/heuristic_mt5_bridge/core/ownership/registry.py:75-503 | Keys, tickets, owners and statuses agree after every run |
| OwnershipLaws.FilledOrderKeepsOwner | src/heuristic_mt5_bridge/core/ownership/registry.py:268-306 | A pending order that fills under the same ticket hands its owner and status to the position it becomes |
| Ownership.DeskNameIs | src/heuristic_mt5_bridge/core/ownership/registry.py:75-123 | A desk is known by its name in any case and with space around it |
| TicketFates.AdoptedIsFast | src/heuristic_mt5_bridge/core/ownership/registry.py:309-406 | A reported ticket without a row, position or order, becomes an active row of the fast desk, inherited and written now |
| TicketFates.OwnersAfterPass | src/heuristic_mt5_bridge/core/ownership/registry.py:263-412 | Every row a pass leaves has the owner and status it had, or those of the order it filled from, or, if it is new, those of an inherited fast row |
| TicketFates.ReportedRowIsKept | src/heuristic_mt5_bridge/core/ownership/registry.py:263-412 | A reported row is active again and otherwise as it was |
| TicketFates.TerminalRowIsLeft | src/heuristic_mt5_bridge/core/ownership/registry.py:414-483 | An unreported row that was terminal before is left alone for as long as it is kept |
| TicketFates.MissingPositionCloses | src/heuristic_mt5_bridge/core/ownership/registry.py:414-434 | An active position that is gone ends closed, with nothing else about it changed |
| TicketFates.MissingOrderNote | src/heuristic_mt5_bridge/core/ownership/registry.py:435-475 | A pending order that is gone keeps its owner and is noted filled if there is fill evidence, else cancelled if there is cancel evidence, else as before |
| TicketFates.RetentionIsKept | src/heuristic_mt5_bridge/core/ownership/registry.py:485-503 | Whatever the broker reports, no row written within the retention before the end of the pass is forgotten |
| TicketFates.CountersAreTheDifference | src/heuristic_mt5_bridge/core/ownership/registry.py:263-503 | The seven counters are the difference between the tables before and after: rows made of each kind, active rows that ended in each state, rows gone, rows open |
| TicketFates.RegistrationGives | src/heuristic_mt5_bridge/core/ownership/registry.py:75-123 | A registered ticket belongs to the desk that is named and is active; no other row changes |
| TicketFates.MoveSucceedsIff | src/heuristic_mt5_bridge/core/ownership/registry.py:175-215 | A reassignment succeeds if and only if it names a desk and an existing row and would not take the row from smc to fast |
| TicketFates.MoveGives | src/heuristic_mt5_bridge/core/ownership/registry.py:175-215 | Then the row belongs to that desk, with lifecycle and tickets as they were, and no other row changes; one that fails changes nothing |
| TicketFates.RunKeepsOwned | src/heuristic_mt5_bridge/core/ownership/registry.py:75-503 | Over every run in which registrations name a desk, every ticket of a table without unassigned rows has a desk |
| DeskViews.VisibleIdsForDesk | src/heuristic_mt5_bridge/core/runtime/service.py:943-986 | The one walk over the open rows fills both sets with exactly the positive tickets of the rows the desk may see |
| DeskViews.DesksNeverShare | src/heuristic_mt5_bridge/core/runtime/service.py:943-986 | In every well-formed table the fast and smc visible ids are disjoint, positions and orders alike |
| DeskViews.DesksNeverShareInAnyRun | src/heuristic_mt5_bridge/core/runtime/service.py:943-986 | And so after every run of passes, reassignments and registrations from an empty table |
| DeskViews.OwnerDecidesView | src/heuristic_mt5_bridge/core/runtime/service.py:943-986 | A ticket is visible to a desk exactly when its row is active and owned by that desk |
| DeskViews.OpenRowsAreVisibleRows | src/heuristic_mt5_bridge/core/runtime/service.py:814-830 | The rows a desk is handed are exactly the rows whose tickets it is shown |
| DeskViews.ReportedTicketHasOneDesk | src/heuristic_mt5_bridge/core/runtime/service.py:943-986 | After a pass with adoption on, a reported ticket is seen by the desk that owns its row and by no other |
| DeskViews.PassPartitionsPayloadsIff | src/heuristic_mt5_bridge/core/runtime/service.py:988-1028 | After a pass with adoption on, every broker entry with a positive id is in exactly one of the two payloads, repetitions included, if and only if the pass leaves no active row unassigned |
| DeskViews.OwnedPayloadsSplit | src/heuristic_mt5_bridge/core/runtime/service.py:988-1028 | From a table without unassigned rows the payloads after a pass with adoption on split the lists of the broker outright |
| DeskViews.PayloadsSplitInEveryRun | src/heuristic_mt5_bridge/core/runtime/service.py:988-1028 | And so after every run from the empty table in which registrations name a desk |
| DeskViews.ForeignPositionIsShownToFast | src/heuristic_mt5_bridge/core/runtime/service.py:943-986 | A foreign position the broker reports is shown to the fast desk and to it alone |
| DeskViews.MovedPositionChangesView | src/heuristic_mt5_bridge/core/runtime/service.py:943-986 | A position handed to another desk is shown to that desk and not to the other |
| DeskViews.EveryRowHasOneName | src/heuristic_mt5_bridge/core/runtime/service.py:814-830 | An open row is handed out under exactly one of the three owner names, its own |
| CandleWindow.MergeCandles | src/heuristic_mt5_bridge/core/runtime/market_state.py:64-71 | Merging equals cutting the last-write-wins history of both lists to the bound, for every bound |
| CandleWindow.MergeIsIncremental | src/heuristic_mt5_bridge/core/runtime/market_state.py:64-71 | Cutting after each of two merges gives the window that one final cut of the whole history gives |
| CandleWindow.MergeIsIdempotent | src/heuristic_mt5_bridge/core/runtime/market_state.py:64-114 | Ingesting a snapshot again leaves the window unchanged |
| CandleWindow.MergeLawNeedsNonNegativeBound | src/heuristic_mt5_bridge/core/runtime/market_state.py:64-71 | The incremental law holds for all histories if and only if the bound is not negative |
| CandleWindow.WindowIsNewest | src/heuristic_mt5_bridge/core/runtime/market_state.py:64-71 | A window holds the largest distinct timestamps of the history, strictly ascending, as many as the bound allows, each with the last candle ingested for it; everything left out is older |
| CandleWindow.BeforeIs | src/heuristic_mt5_bridge/core/runtime/market_state.py:64-71 | Timestamps are ordered as text: at the first difference by character, and a text after its own beginnings |
| MarketState.MarketStateService.IngestSnapshot | src/heuristic_mt5_bridge/core/runtime/market_state.py:93-114 | After any ingest every stored window is the final cut of all candles ever ingested for its key; a negative bound raises and changes nothing |
| MarketState.MarketStateService.GetCandles | src/heuristic_mt5_bridge/core/runtime/market_state.py:284-292 | A reader gets the window a smaller bound would have kept; zero or negative requests give the whole window |
| MarketState.MarketStateService.RemoveSymbol | src/heuristic_mt5_bridge/core/runtime/market_state.py:298-304 | Every timeframe of the symbol is dropped, nothing else, and the count is right |
| MarketState.ReadingIsSmallerWindow | src/heuristic_mt5_bridge/core/runtime/market_state.py:284-292 | Slicing a kept window to fewer bars is the window of that smaller bound |
| MarketState.ReadingIsNewest | src/heuristic_mt5_bridge/core/runtime/market_state.py:284-292 | What a reader is given are the newest timestamps ingested for the key, ascending, each with its last candle, as many as asked for and kept; everything left out is older |
| MarketState.PrefixSelectsSymbol | src/heuristic_mt5_bridge/core/runtime/market_state.py:298-304 | For symbols without a colon the removal prefix selects exactly the keys of that symbol |
| MarketState.KeyTextInjective | src/heuristic_mt5_bridge/core/runtime/market_state.py:73-81 | Storing windows under the key text never confuses two keys, for symbols without a colon |
| Symbols.NormalizeIdempotent | src/heuristic_mt5_bridge/shared/symbols/universe.py:13-23 | Normalising a symbol is a projection and does not change whether it is operable |
| Symbols.NormalIsPlain | src/heuristic_mt5_bridge/shared/symbols/universe.py:13-15 | A normalised symbol has no space at its ends and no small letter |
| Symbols.StripIgnoresSpace | src/heuristic_mt5_bridge/shared/symbols/universe.py:13-15 | Space around a name does not matter |
| Symbols.NormalizeIgnoresCase | src/heuristic_mt5_bridge/shared/symbols/universe.py:13-15 | Names that read the same in capitals are one symbol |
| Subscriptions.NormalizedUniqueIs | src/heuristic_mt5_bridge/core/runtime/subscriptions.py:10-19 | The cleaned list has no duplicates and holds exactly the normalised operable symbols of the input |
| Subscriptions.NormalizeUniqueSymbols | src/heuristic_mt5_bridge/core/runtime/subscriptions.py:10-19 | The loop builds that list |
| Subscriptions.CleanListUnchanged | src/heuristic_mt5_bridge/core/runtime/subscriptions.py:10-19 | Cleaning a clean list changes nothing, order included |
| Subscriptions.SubscriptionManager.SetCatalogUniverse | src/heuristic_mt5_bridge/core/runtime/subscriptions.py:40-45 | Only the catalog changes, and its lookup set with it |
| Subscriptions.SubscriptionManager.BootstrapFromEnv | src/heuristic_mt5_bridge/core/runtime/subscriptions.py:47-62 | Both lists become the accepted symbols; exactly the refused ones are returned |
| Subscriptions.SubscriptionManager.ReconcileSubscriptionsWithCatalog | src/heuristic_mt5_bridge/core/runtime/subscriptions.py:64-74 | Exactly the subscriptions a non-empty catalog does not list are dropped and returned |
| Subscriptions.SubscriptionManager.Subscribe | src/heuristic_mt5_bridge/core/runtime/subscriptions.py:76-86 | Appends a new operable symbol the catalog accepts; reports a change exactly when there is one |
| Subscriptions.SubscriptionManager.ForceSubscribe | src/heuristic_mt5_bridge/core/runtime/subscriptions.py:88-96 | The same without asking the catalog |
| Subscriptions.SubscriptionManager.Unsubscribe | src/heuristic_mt5_bridge/core/runtime/subscriptions.py:98-106 | Removes the symbol and keeps the order of the others |
| Subscriptions.UnsubscribeUndoesIff | src/heuristic_mt5_bridge/core/runtime/subscriptions.py:76-106 | Unsubscribing undoes a subscription, order and all, if and only if the symbol was not followed before |
| Subscriptions.SubscriptionManager.ReplaceSubscribedUniverse | src/heuristic_mt5_bridge/core/runtime/subscriptions.py:108-114 | The list becomes the accepted symbols of the request |
| Subscriptions.SubscriptionManager.EnsureSubscribed | src/heuristic_mt5_bridge/core/runtime/service.py:366-398 | Exactly the symbols with open business that were not followed are appended, listed by the catalog or not, in order, and returned |
| ChartRegistry.ChartRegistry.SyncWorkers | src/heuristic_mt5_bridge/core/runtime/chart_registry.py:43-71 | Afterwards the workers are exactly the listed symbols, survivors are the same instances, new ones are new, and exactly the dropped symbols lost their chart memory |
| ChartRegistry.ChartRegistry.ApplySnapshot | src/heuristic_mt5_bridge/core/runtime/chart_registry.py:73-92 | A snapshot is ingested exactly when a worker for its symbol and timeframe exists, and then only its own window changes; otherwise nothing does |
| ChartRuntime.RunStaysInStep | src/heuristic_mt5_bridge/core/runtime/ingress.py:44-80 | In every interleaving of poll steps with subscription, catalog and custody steps the list has no duplicates, the workers are exactly its symbols, and every chart-memory key belongs to a worker or a symbol in custody |
| ChartRuntime.RunFromStartupStaysInStep | src/heuristic_mt5_bridge/core/runtime/service.py:484-501 | From the runtime as it is built, all this holds from the first catalog on |
| ChartService.SubscribeSymbol | src/heuristic_mt5_bridge/core/runtime/service.py:636-647 | On the objects themselves this is the subscribe step of the interleavings, sync included |
| ChartService.UnsubscribeSymbol | src/heuristic_mt5_bridge/core/runtime/service.py:649-660 | The unsubscribe step |
| ChartService.ReplaceUniverse | src/heuristic_mt5_bridge/core/runtime/service.py:662-671 | The replace step |
| ChartService.RefreshCatalog | src/heuristic_mt5_bridge/core/runtime/service.py:484-501 | The catalog step: new catalog, subscriptions reconciled with it, workers synced |
| ChartService.InitializeBootstrap | src/heuristic_mt5_bridge/core/runtime/service.py:512-516 | The bootstrap step |
| ChartService.FollowActivity | src/heuristic_mt5_bridge/core/runtime/service.py:366-398 | The activity step; without a new symbol nothing is synced |
| ChartService.ApplyFetched | src/heuristic_mt5_bridge/core/runtime/ingress.py:64-75 | Applying or ignoring an arrived snapshot is the second half of a poll step |
| ChartRuntime.LateSnapshotRevivesNothing | src/heuristic_mt5_bridge/core/runtime/ingress.py:44-75 | A symbol dropped while its fetch is in flight has no chart memory afterwards, whatever ran in between |
| ChartRuntime.ActivityIsFollowed | src/heuristic_mt5_bridge/core/runtime/service.py:366-398 | After an account refresh every symbol with open business has a worker, and no worker is lost |
| ChartRuntime.RunFate | src/heuristic_mt5_bridge/core/runtime/subscriptions.py:40-114 | Over every run, whether the catalog would accept a symbol and whether it is followed depends only on the steps as they bear on that symbol: the run of the lists refines a two-bit machine per symbol |
| ChartRuntime.WorkerFate | src/heuristic_mt5_bridge/core/runtime/subscriptions.py:40-114 | So whether a symbol has a worker in the end can be told from its own history, whatever polls, custody and other symbols do |
| ChartRuntime.FollowingAppends | src/heuristic_mt5_bridge/core/runtime/subscriptions.py:76-96 | Subscribing and following business keep the place of every symbol already followed |
| ChartRuntime.ContextIsNeverFollowed | src/heuristic_mt5_bridge/shared/symbols/universe.py:17-23 | In every run only names in normal form are followed, and never one that serves as context |
| ChartRuntime.OthersAreNamed | src/heuristic_mt5_bridge/shared/symbols/universe.py:13-23 | Every other such name a list holds is one it stands for |
| ChartRuntime.ArrivedIsStoredIff | src/heuristic_mt5_bridge/core/runtime/ingress.py:64-75 | An arrived snapshot is stored if and only if its symbol is followed and its timeframe watched; no other window comes or goes with it |
| ChartRuntime.RunHoldsIff | src/heuristic_mt5_bridge/core/runtime/chart_registry.py:43-71 | A window stays in chart memory through a run if and only if the worker of its symbol is not dropped and no custody of the symbol ends |
| RiskLimits.SharesSumToOne | src/heuristic_mt5_bridge/core/risk/kernel.py:223-238 | The two half-even, six-decimal shares are fractions that sum to exactly one |
| RiskLimits.HigherProfileGetsMore | src/heuristic_mt5_bridge/core/risk/kernel.py:223-238 | With equal weights the desk with the higher profile has more than half of the budget, and equal profiles have half each |
| RiskLimits.SlotsNearCap | src/heuristic_mt5_bridge/core/risk/kernel.py:240-259 | Splitting a whole cap of at least one slot gives both desks together at most one slot more, and exactly then when the split overallots: a desk that rounds to none, or a tie that rounds both up |
| RiskLimits.DeskBudgetsNearCap | src/heuristic_mt5_bridge/core/risk/kernel.py:223-259 | The position budgets of the desks, and their pending budgets, sum to at most the cap plus one |
| RiskLimits.FastIsHeld | src/heuristic_mt5_bridge/core/risk/kernel.py:240-259 | In all six respects the fast desk has the lesser of its own profile and what the account leaves it: the limit of the account itself, or the portion by its own share |
| RiskLimits.SmcIsHeld | src/heuristic_mt5_bridge/core/risk/kernel.py:240-259 | The same for the smc desk |
| RiskLimits.ClampIs | src/heuristic_mt5_bridge/core/risk/kernel.py:81-84 | Profiles one to four are kept, zero reads as two, the rest goes to the nearest end |
| RiskLimits.PositionsExceedIff | src/heuristic_mt5_bridge/core/risk/kernel.py:223-259 | For any settings and whole caps the two position budgets sum above the cap if and only if the cap is below one, or its split overallots it and neither profile asks for less than the slots |
| RiskLimits.PendingExceedIff | src/heuristic_mt5_bridge/core/risk/kernel.py:223-259 | The same for the two budgets of pending orders |
| RiskLimits.CapOfOneIsExceeded | src/heuristic_mt5_bridge/core/risk/kernel.py:240-259 | An instance: a cap of one position, evenly split, gives each desk one |
| RiskLimits.SmallProfilesKeepCap | src/heuristic_mt5_bridge/core/risk/kernel.py:240-259 | An instance of the other side: the split of twenty overallots, and the profiles keep the budgets at six |
| RiskLimits.RaisingFast | src/heuristic_mt5_bridge/core/risk/kernel.py:223-269 | A larger weight or profile of the fast desk lowers none of its limits and raises none of the smc desk, through all roundings |
| RiskLimits.RaisingSmc | src/heuristic_mt5_bridge/core/risk/kernel.py:223-269 | The same with the desks exchanged |
| Rounding.HalfEvenComplement | src/heuristic_mt5_bridge/core/risk/kernel.py:223-238 | Half-even rounding of a split whole number loses or gains one exactly at the ties it rounds the same way |
| Rounding.RoundToIsNear | src/heuristic_mt5_bridge/core/risk/kernel.py:223-238 | Rounding moves a number by half a unit of the last place at most |
| RiskKernel.RiskKernel.UpdateUsage | src/heuristic_mt5_bridge/core/risk/kernel.py:271-323 | Usage is what the account and the open rows amount to; a reported count of zero is replaced by the length of the list |
| RiskKernel.ListOverrulesZero | src/heuristic_mt5_bridge/core/risk/kernel.py:271-290 | A reported count holds, except that zero, like a missing count, is overruled by the list; so does a reported exposure, unless it is not positive |
| RiskKernel.SymbolCountIs | src/heuristic_mt5_bridge/core/risk/kernel.py:271-290 | The count of a symbol is the number of places at which the list names it, in any case |
| RiskKernel.DeskCountIs | src/heuristic_mt5_bridge/core/risk/kernel.py:291-305 | The counts of a desk are the numbers of open rows of each kind that it owns |
| RiskKernel.GrossAddsUp | src/heuristic_mt5_bridge/core/risk/kernel.py:271-290 | Gross exposure adds up over the list of positions |
| RiskKernel.GrossOfOne | src/heuristic_mt5_bridge/core/risk/kernel.py:271-290 | Each position adds its volume without the sign |
| RiskKernel.RiskKernel.EvaluateEntry | src/heuristic_mt5_bridge/core/risk/kernel.py:325-365 | Allowed exactly when no reason applies, and the reasons are exactly those that apply, in the order of the checks |
| RiskKernel.ReasonsAreRanked | src/heuristic_mt5_bridge/core/risk/kernel.py:325-357 | Each reason is given once, in the order of the checks; a name that is no desk has only its own |
| RiskKernel.TruncateIs | src/heuristic_mt5_bridge/core/risk/kernel.py:343-354 | Limits are cut to the whole number next to them on the side of zero |
| RiskKernel.RiskKernel.EvaluateAction | src/heuristic_mt5_bridge/core/risk/kernel.py:367-381 | Under a tripped switch exactly the risk-reducing actions pass |
| RiskKernel.RiskKernel.SetProfiles | src/heuristic_mt5_bridge/core/risk/kernel.py:383-409 | Given profiles are clamped and given overrides replace earlier ones; nothing else changes |
| RiskKernel.OverridesTakeEffect | src/heuristic_mt5_bridge/core/risk/kernel.py:215-221 | A new override is the limit in force from then on; one that is not given leaves the limit that was |
| RiskKernel.OverridesCompose | src/heuristic_mt5_bridge/core/risk/kernel.py:383-409 | Overriding in two goes is overriding once with both, the later one winning |
| EntryGate.GateReadsTheBook | src/heuristic_mt5_bridge/core/risk/kernel.py:271-365 | Whatever the volumes, tickets and orders of its lists, if the account reports the totals of a book, the positions in the symbol and the operations of the desk, the gate decides on the refreshed usage as on the book itself; `EntryGate.PlainReport` gives every book such a report |
| EntryGate.GateOpensIff | src/heuristic_mt5_bridge/core/risk/kernel.py:325-365 | The gate opens if and only if no enabled switch is tripped, drawdown and gross exposure are within bounds, and account, symbol and the desk itself have room, each by its own limit |
| EntryGate.KernelGateIsEntryStep | src/heuristic_mt5_bridge/core/risk/kernel.py:325-365 | The limits by which the kernel judges a desk are those of the runs: its verdict on a book is whether the entry is a possible step |
| EntryGate.RefreshedGateIsEntryStep | src/heuristic_mt5_bridge/core/risk/kernel.py:271-365 | The same for usage refreshed from an account and open rows that report the book |
| EntryGate.AskAfterRefresh | src/heuristic_mt5_bridge/core/runtime/service.py:600-612 | A refresh followed by a question to the kernel object answers whether the entry is a possible step of the runs, so their bounds speak of it |
| EntryGate.RunStaysWithin | src/heuristic_mt5_bridge/core/risk/kernel.py:325-365 | In every run of gated entries, ungated fills, closes, cancels and arrivals: pending <= O + a and positions + pending <= P + O - 1 + a, account-wide, per desk, per symbol and per both, with P and O the least of the limits that apply and a the operations of the slice that arrived past the gate; with P or O below one the gate opens nothing |
| EntryGate.AccountStaysWithin | src/heuristic_mt5_bridge/core/risk/kernel.py:223-365 | The same for the limits any settings produce, from an empty account |
| EntryGate.TrippedBookNeverGrows | src/heuristic_mt5_bridge/core/risk/kernel.py:339-340 | While an enabled switch is tripped and not reset, the number of open and pending operations grows by arrivals past the gate only |
| EntryGate.DisabledSwitchIsIdle | src/heuristic_mt5_bridge/core/risk/kernel.py:339-340 | While the switch is not enabled, tripping it changes neither which runs are possible nor the books they lead to |
| GateCapacity.DeskBoundIsAttained | src/heuristic_mt5_bridge/core/risk/kernel.py:325-365 | Some run of gated entries and fills brings either desk to its capacity in open positions |
| GateCapacity.AccountIsAttained | src/heuristic_mt5_bridge/core/risk/kernel.py:325-365 | Some run brings the account to its capacity, both desks interleaved |
| GateCapacity.DeskLimitKeptIff | src/heuristic_mt5_bridge/core/risk/kernel.py:325-365 | For all limits, either desk and every n: no run of gated entries takes the open positions of the desk past n if and only if its capacity, computed from the limits, is at most n |
| GateCapacity.DeskOwnLimitKeptIff | src/heuristic_mt5_bridge/core/risk/kernel.py:325-365 | Where the limits let a desk enter at all and the account limit leaves it its own, that limit is kept if and only if the desk may have one pending order at most |
| GateCapacity.AccountLimitKeptIff | src/heuristic_mt5_bridge/core/risk/kernel.py:325-365 | For all limits and every n: no run takes the account past n open positions if and only if the account capacity, computed from the limits of the account and both desks, is at most n |
| GateCapacity.AccountOwnLimitKeptIff | src/heuristic_mt5_bridge/core/risk/kernel.py:325-365 | The limit of the account is kept if and only if it is not negative and at most one order may be pending, or the capacities of the two desks fit the limit together |
| GateCapacity.SymbolLimitKeptIff | src/heuristic_mt5_bridge/core/risk/kernel.py:325-365 | For all limits, every symbol in capitals and every n: no run takes one symbol past n open positions if and only if the capacity of an account limited to the lesser of the account and symbol limits is at most n |
| GateCapacity.DefaultsOvershoot | src/heuristic_mt5_bridge/core/risk/kernel.py:86-96 | With the default settings none is kept: the fast desk is limited to three positions and reaches five, smc to two and reaches three, and the account to five and reaches eight |
| GateCapacity.CapOfOneOvershoots | src/heuristic_mt5_bridge/core/risk/kernel.py:86-96 | With an account cap of one and symbol limits of two, one symbol reaches four positions, and no more |
| EntryPolicy.CanOpen | src/heuristic_mt5_bridge/fast_desk/policies/entry.py:10-73 | The verdict is the first objection in the order duplicate, symbol cap, total cap, concentration |
| EntryPolicy.VerdictIsFirst | src/heuristic_mt5_bridge/fast_desk/policies/entry.py:10-73 | A verdict is given if and only if it objects and no earlier objection does; allowed if none does |
| EntryPolicy.BuiltWithinCaps | src/heuristic_mt5_bridge/fast_desk/policies/entry.py:10-73 | A book built only from admitted entries respects both caps and never repeats a symbol and side |
| EntryPolicy.BuiltIsBalanced | src/heuristic_mt5_bridge/fast_desk/policies/entry.py:47-73 | From four positions on, every side count k of such a book of n satisfies 10k < 7n + 3 |
| EntryPolicy.BalanceIsAttained | src/heuristic_mt5_bridge/fast_desk/policies/entry.py:10-73 | The bound cannot be lowered: under any caps that let n >= 4 positions in, some admitted book of n has the largest k of one side with 10k < 7n + 3 |
| Pearson.CauchySchwarz | src/heuristic_mt5_bridge/core/correlation/service.py:37-48 | For series of equal length the square of the dot product is at most the product of the two squared norms |
| Pearson.ClampIsIdle | src/heuristic_mt5_bridge/core/correlation/service.py:37-48 | The exact coefficient already lies between -1 and 1, so the clamp never changes it |
| Pearson.CoefficientIsSymmetric | src/heuristic_mt5_bridge/core/correlation/service.py:20-48 | Exchanging the series gives the same coefficient, or none in both cases |
| Pearson.NoneIff | src/heuristic_mt5_bridge/core/correlation/service.py:33-45 | There is no coefficient exactly for fewer than two values, unequal lengths or a constant series |
| Pearson.CoefficientUnderAffine | src/heuristic_mt5_bridge/core/correlation/service.py:37-48 | Changing the unit and origin of a series keeps the coefficient, and flips its sign when the unit is negative |
| Pearson.PerfectIff | src/heuristic_mt5_bridge/core/correlation/service.py:37-48 | The coefficient is one exactly when one series is a rising affine image of the other |
| Aligner.AlignAndReturns | src/heuristic_mt5_bridge/core/correlation/aligner.py:59-144 | The join of two candle lists is the alignment of their cleaned close maps; every early exit is a lack of three shared epochs |
| Aligner.BuildCloseMap | src/heuristic_mt5_bridge/core/correlation/aligner.py:88-111 | The loop keeps the last positive close of every epoch that parses |
| Aligner.CloseMapHas | src/heuristic_mt5_bridge/core/correlation/aligner.py:88-111 | An epoch has a close if and only if some candle of it has a positive one |
| Aligner.CloseMapIsLast | src/heuristic_mt5_bridge/core/correlation/aligner.py:88-111 | And the last such candle says which |
| Aligner.SortEpochs | src/heuristic_mt5_bridge/core/correlation/aligner.py:116-117 | The shared epochs in the one ascending order they have |
| Aligner.SimpleReturns | src/heuristic_mt5_bridge/core/correlation/aligner.py:34-43 | One return per step, zero after a zero price |
| Aligner.ZeroPriceReturnsNothing | src/heuristic_mt5_bridge/core/correlation/aligner.py:34-43 | A zero price gives a zero return, whatever follows it |
| Aligner.ReturnsRebuildCloses | src/heuristic_mt5_bridge/core/correlation/aligner.py:34-43 | The first price and the returns give back every price of a series without zeros |
| Aligner.AlignmentSwaps | src/heuristic_mt5_bridge/core/correlation/aligner.py:59-144 | Joining the other way round exchanges the return series and keeps count and coverage |
| Aligner.AlignmentIsFaithful | src/heuristic_mt5_bridge/core/correlation/aligner.py:111-144 | An alignment uses every shared epoch once, ascending; each return series is one shorter and rebuilds its closes; the coverage is a fraction |
| Aligner.CoverageIsShare | src/heuristic_mt5_bridge/core/correlation/aligner.py:117-125 | The coverage is the shared part of the smaller series, to four places |
| CorrelationMatrix.ComputePair | src/heuristic_mt5_bridge/core/correlation/service.py:111-160 | One pair: the coefficient of the aligned returns, with bars, coverage and the coverage flag; nothing usable without an alignment |
| CorrelationMatrix.FeedIsNewest | src/heuristic_mt5_bridge/core/correlation/service.py:111-130 | A pair is measured on the newest candles of either symbol in the timeframe, as many as the window of the settings and the market hold |
| CorrelationMatrix.CoveredIff | src/heuristic_mt5_bridge/core/correlation/service.py:140-150 | A pair is covered if and only if its symbols share at least three epochs and as many as the settings demand; its bars are those epochs |
| CorrelationMatrix.HasCoefficientIff | src/heuristic_mt5_bridge/core/correlation/service.py:111-160 | A pair has a coefficient if and only if it shares three epochs and neither return series is constant |
| CorrelationMatrix.ComputedSwaps | src/heuristic_mt5_bridge/core/correlation/service.py:111-160 | Measuring a pair in the other order gives the same coefficient, bars, coverage and flag |
| CorrelationMatrix.ComputedInRange | src/heuristic_mt5_bridge/core/correlation/service.py:111-160 | A stored coefficient lies between -1 and 1 and rests on at least three shared bars |
| CorrelationMatrix.CorrelationService.RefreshTimeframe | src/heuristic_mt5_bridge/core/correlation/service.py:162-189 | The nested walk fills exactly the pairs of an earlier and a later followed symbol, in that order, each with its measurement, and sums up bars and coverage |
| CorrelationMatrix.MinBars | src/heuristic_mt5_bridge/core/correlation/service.py:177-179 | The smallest positive bar count that occurs, or zero when none does |
| CorrelationMatrix.MatrixIsUpperTriangle | src/heuristic_mt5_bridge/core/correlation/service.py:162-189 | n distinct symbols give n(n-1)/2 entries: one for each unordered pair, none for a symbol with itself |
| CorrelationMatrix.LookupIgnoresKeyOrder | src/heuristic_mt5_bridge/core/correlation/models.py:60-64 | A lookup finds the same value either way round, exactly for two different followed symbols, and it is that pair's measurement |
| CorrelationMatrix.LookupCoveredIff | src/heuristic_mt5_bridge/core/correlation/models.py:60-64 | What a lookup finds, in either order, is covered if and only if the two symbols share enough epochs |
| CorrelationMatrix.AllCoveredIff | src/heuristic_mt5_bridge/core/correlation/service.py:177-189 | A matrix is covered as a whole if and only if there are two symbols at least and every two of them share enough epochs |
| CorrelationMatrix.MatrixIgnoresListOrder | src/heuristic_mt5_bridge/core/correlation/service.py:162-189 | Following the same symbols in another order changes no measurement that can be looked up |
| CorrelationMatrix.CorrelationService.Refresh | src/heuristic_mt5_bridge/core/correlation/service.py:253-262 | A refresh replaces the snapshot of one timeframe as a whole and leaves the others alone |
| CorrelationMatrix.CorrelationService.GetExposureRelations | src/heuristic_mt5_bridge/core/correlation/service.py:211-225 | The walk over the stored pairs keeps exactly those that name the symbol, in insertion order |
| CorrelationMatrix.RelationsAreLookups | src/heuristic_mt5_bridge/core/correlation/service.py:211-225 | A followed symbol has one relation with every other one, in list order, equal to what looking that pair up gives |
| ConflictPolicy.FastCorrelationPolicy.CheckEntryConflict | src/heuristic_mt5_bridge/fast_desk/correlation/policy.py:63-118 | Clear exactly when a portfolio step would admit the entry; otherwise the verdict names the first open position that conflicts, its coefficient, and which of the two conflicts it is |
| ConflictPolicy.OrderMattersIff | src/heuristic_mt5_bridge/fast_desk/correlation/policy.py:104-116 | Whether two entries conflict depends on their order exactly when one of them has no side and the pair moves together; never for buys and sells |
| ConflictPolicy.HighPairForbidsOneSide | src/heuristic_mt5_bridge/fast_desk/correlation/policy.py:42-57 | Against an open buy or sell, a pair classified high forbids exactly one of the two sides, any other pair none |
| ConflictPolicy.PortfolioIsConflictFree | src/heuristic_mt5_bridge/fast_desk/correlation/policy.py:63-118 | Against one snapshot, a portfolio built by any run of admitted entries and closes is free of conflicts, whichever position that has a side is taken as the new one |
| ConflictPolicy.PortfolioSidesAgree | src/heuristic_mt5_bridge/fast_desk/correlation/policy.py:104-116 | In such a portfolio two positions whose usable coefficient is high are on the same side, and two whose coefficient is as low as that on different sides |
| ConflictPolicy.UsableIff | src/heuristic_mt5_bridge/fast_desk/correlation/policy.py:95-103 | A decision relies on a coefficient if and only if it belongs to two different followed symbols that share enough epochs, and it is the one their measurement gives |
| ConflictPolicy.BlankSideIsHarmless | src/heuristic_mt5_bridge/fast_desk/correlation/policy.py:84-105 | A position whose side is present but blank conflicts with nothing, whatever its direction |
| ConflictPolicy.DirectionStandsIn | src/heuristic_mt5_bridge/fast_desk/correlation/policy.py:84-105 | A missing side is replaced by the direction, in any case |
| ConflictPolicy.ClassGrows | src/heuristic_mt5_bridge/fast_desk/correlation/policy.py:42-57 | The class depends on the size of the coefficient, grows with it, and changes at the two thresholds and at zero, thresholds included |
| ActivityLog.Log.EmitEvent | src/heuristic_mt5_bridge/fast_desk/activity_log.py:60-75 | Both rings stay the newest 500 events and the newest 200 of each symbol |
| ActivityLog.Log.EmitPipelineTrace | src/heuristic_mt5_bridge/fast_desk/activity_log.py:128-146 | The trace ring stays the newest 300 traces and the cursor counts all of them |
| ActivityLog.Log.PipelineTracesSince | src/heuristic_mt5_bridge/fast_desk/activity_log.py:173-202 | A poll with nothing emitted meanwhile returns the newest traces after the reader, as many as ring and limit allow; limit 0 means all |
| ActivityLog.PollIsExactIff | src/heuristic_mt5_bridge/fast_desk/activity_log.py:179-202 | Traces emitted between the two reads of one poll spoil what it returns: unless the newest repeats the last one seen, it is right if and only if there were none |
| ActivityLog.TornPollRepeats | src/heuristic_mt5_bridge/fast_desk/activity_log.py:179-202 | After such a poll the next one delivers the last trace again |
| ActivityLog.RunIsOrderly | src/heuristic_mt5_bridge/fast_desk/activity_log.py:173-202 | Over every run of emits and uninterrupted polls, with any limit and any gaps, a reader sees traces in emission order, none twice, none from before it joined |
| ActivityLog.DeliveriesAreTheLogIff | src/heuristic_mt5_bridge/fast_desk/activity_log.py:173-202 | Put together, the deliveries are the emission log if and only if no poll found a gap larger than limit and ring can carry |
| PollRuns.RunIsFaithful | src/heuristic_mt5_bridge/fast_desk/activity_log.py:173-202 | Over every run of emits and the two separate reads of polls, each poll returns the end of what its second read saw, as long as the gap its first read saw and the limit and ring allow |
| PollRuns.LostIff | src/heuristic_mt5_bridge/fast_desk/activity_log.py:173-202 | A trace a reader has passed is never delivered if and only if the poll it belongs to did not reach back to it and the poll before did not return it early |
| PollRuns.RepeatedIff | src/heuristic_mt5_bridge/fast_desk/activity_log.py:173-202 | It is delivered twice if and only if the poll before returned it early and its own poll reached back to it; never more often |
| PollRuns.NothingLostIff | src/heuristic_mt5_bridge/fast_desk/activity_log.py:173-202 | A reader misses nothing if and only if every poll could carry its gap and, unless the gap was empty, nothing was emitted between its reads |
| ActivityLog.Log.RecentForSymbol | src/heuristic_mt5_bridge/fast_desk/activity_log.py:86-94 | The newest events of a symbol, newest first, as if the whole history had been kept |
| ActivityLog.Log.PerSymbolSummary | src/heuristic_mt5_bridge/fast_desk/activity_log.py:97-121 | One summary for every symbol ever heard of, over its newest 200 events: last gate, blocked and passed totals, and how often each gate blocked |
| ActivityLog.SummaryIsCurrent | src/heuristic_mt5_bridge/fast_desk/activity_log.py:97-121 | The last gate of a summary is the one that judged the latest event of the symbol |
| ActivityLog.BlockedIs | src/heuristic_mt5_bridge/fast_desk/activity_log.py:97-121 | A gate is counted as often as it blocked an event |
| ActivityLog.OfHasAll | src/heuristic_mt5_bridge/fast_desk/activity_log.py:60-75 | Every event of a symbol is among its events, as often as it was emitted |
| FastDesk.DesiredSymbols | src/heuristic_mt5_bridge/fast_desk/runtime.py:443-508 | Every operable symbol of the list is entered or rejected, never both; entered only with the session on and its own schedule open, or no schedules yet; rejected with the reason whose facts hold |
| FastDesk.Gates.RejectsIff | src/heuristic_mt5_bridge/fast_desk/runtime.py:476-506 | A symbol passes if and only if the session is on and its own schedule is open, or there are no schedules yet; otherwise exactly one reason explains why not |
| FastDesk.Inputs.EntryIff | src/heuristic_mt5_bridge/fast_desk/runtime.py:476-508 | A symbol is entered if and only if it is assigned and operable and passes, said of the session and the schedules |
| FastDesk.ForcedCustodySymbols | src/heuristic_mt5_bridge/fast_desk/runtime.py:510-539 | The usable symbols of the open rows in custody, once each, named by the row or else by its metadata |
| FastDesk.CustodyIsFastOwnership | src/heuristic_mt5_bridge/fast_desk/runtime.py:518-526 | Of the coherent rows of the ownership table exactly those of the fast desk are in custody |
| FastDesk.EitherIsEnough | src/heuristic_mt5_bridge/fast_desk/runtime.py:518-526 | Where owner and status disagree, either puts the row in custody |
| FastDesk.MetadataIsFallback | src/heuristic_mt5_bridge/fast_desk/runtime.py:526-535 | A row is named by its symbol; the metadata counts only if that is blank |
| FastDesk.FastDeskWorkers.Pass | src/heuristic_mt5_bridge/fast_desk/runtime.py:331-431 | After a pass the running tasks are exactly the wanted workers in their wanted roles, unchanged roles kept their task, no started task is left without an entry, exactly the transient workers stopped or restarted lost their chart memory, and entries are allowed exactly on assigned symbols with the session on and their schedule open, or no schedules yet |
| FastDesk.FastDeskWorkers.Shutdown | src/heuristic_mt5_bridge/fast_desk/runtime.py:434-441 | Nothing keeps running and no transient chart memory is kept |
| FastDesk.Inputs.DesiredIff | src/heuristic_mt5_bridge/fast_desk/runtime.py:338-351 | A symbol has a worker exactly when it is assigned with the session on and its schedule open, or no schedules yet, or an open row in custody names it |
| FastDesk.Inputs.ModeIff | src/heuristic_mt5_bridge/fast_desk/runtime.py:385-388 | A worker may enter exactly on such an assigned symbol, and is transient exactly if its symbol is not assigned |
| FastDesk.Inputs.CustodyBeatsGates | src/heuristic_mt5_bridge/fast_desk/runtime.py:344-358 | Every operable symbol with an open row in custody gets a worker, whatever the gates and the list say |
| FastDesk.Inputs.EntryIsNeverTransient | src/heuristic_mt5_bridge/fast_desk/runtime.py:338-345 | No worker that may enter is transient |
| FastDesk.SecondPassChangesNothing | src/heuristic_mt5_bridge/fast_desk/runtime.py:385-430 | A second pass over the same inputs restarts nothing and frees nothing |
| FastDesk.EntryMemoryFreedIff | src/heuristic_mt5_bridge/fast_desk/runtime.py:391-398 | A symbol that comes back from transient custody loses its chart memory in that pass; no other entry symbol does |
| FastDesk.FreedIff | src/heuristic_mt5_bridge/fast_desk/runtime.py:359-398 | A pass frees the memory of exactly those transient workers that it does not leave running as they were |
| SmcDispatch.SmcDeskService.OnScannerEvent | src/heuristic_mt5_bridge/smc_desk/runtime.py:109-120 | An event is queued exactly if it is a trigger, its symbol has none pending and there is room; a dropped event does not bar its symbol; on the object this is the put and mark of the interleavings |
| SmcDispatch.SmcDeskService.Dispatch | src/heuristic_mt5_bridge/smc_desk/runtime.py:138-157 | The slot is released, and an analyst runs exactly if the desk is ready and the cooldown has passed; on the object these are the release and decide steps of the interleavings |
| SmcDispatch.QueueInEveryRun | src/heuristic_mt5_bridge/smc_desk/runtime.py:109-158 | In every interleaving at most 256 events with distinct symbols wait, the dedup set covers them, and accepted events are taken in order without loss; if no callback is interrupted the set is exactly the waiting symbols and the one just taken |
| SmcDispatch.AcceptedIff | src/heuristic_mt5_bridge/smc_desk/runtime.py:109-120 | After every run without an interrupted callback an event is let in, last in line, if and only if it is a trigger, none of its symbol waits or is being taken, and there is room |
| SmcDispatch.RunsInEveryRun | src/heuristic_mt5_bridge/smc_desk/runtime.py:126-158 | In every interleaving analyst runs never overlap, two runs of one symbol start at least the cooldown apart, and a first run starts no earlier than the cooldown on the loop clock |
| SmcDispatch.RunStartsIff | src/heuristic_mt5_bridge/smc_desk/runtime.py:138-157 | In every interleaving the symbol taken is analysed if and only if the desk is ready, the loop clock has reached the cooldown, and every earlier run of the symbol is that old |
| SmcDispatch.SticksIff | src/heuristic_mt5_bridge/smc_desk/runtime.py:109-139 | A step bars a symbol with nothing waiting if and only if it is the second half of the callback and the event it marks is not waiting any more |
| SmcDispatch.NothingStuckIff | src/heuristic_mt5_bridge/smc_desk/runtime.py:109-139 | In any interleaving no symbol is barred like that if and only if every callback found its event still waiting when it came to mark it |
| SmcDispatch.DedupExactIff | src/heuristic_mt5_bridge/smc_desk/runtime.py:102-120 | Between callbacks the dedup set is exactly the waiting symbols if and only if no symbol is barred like that |
| SmcDispatch.InterruptedCallbackSticks | src/heuristic_mt5_bridge/smc_desk/runtime.py:116-139 | An instance from every idle desk with an empty queue: the loop takes and releases the event between the two halves of its callback |
| SmcDispatch.StuckForever | src/heuristic_mt5_bridge/smc_desk/runtime.py:109-139 | A symbol once barred like that stays so: no event of it is accepted in anything that follows |

## Left out

- Time stamps, reasons, metadata texts and the event log of ownership rows; only the clock a purge needs is kept. `list_open` sorts by time of update, the model returns the rows in any order.
- SQLite, MT5, HTTP, the session registry and the web interface: broker lists, market gates and row lists are inputs.
- Text is ASCII: stripping and case change follow ASCII rules.
- Candles keep their timestamp and close; other fields are carried along by the source unchanged. How a timestamp text parses to an epoch is a parameter.
- Windows are stored under a pair of symbol and timeframe; `MarketState.KeyTextInjective` justifies it for symbols without a colon.
- Floating-point error: arithmetic is over exact reals, the 0.70 test is an integer comparison, and the square root is a parameter with its defining equation.
- Log returns, `source_stale`, `computed_at`, and the sorted list of `build_details`.
- A correlation refresh reads the market while other tasks may change it; the model reads it at one moment.
- `build_chart_context`, trend and impulse labels, and `query` projections: heuristic labels without a deep claim.
- Desk drawdown, per-symbol and gross limits of a desk are computed in the source but no gate checks them; they appear in the monotonicity results only.
- Risk state loading, persistence and its event log.
- A worker task of the fast desk that ends by itself is not noticed by a pass, in the source as in the model: a listed task counts as running until it is cancelled.
- Logging and the market-gate ring of the fast desk, and the trader worker loop of the smc desk.
- Cancellation in the middle of a pass; a pass and a locked section are one step each, except for the poll of the trace ring and the dispatch of the smc desk, which are split.
- Registry listings other than the open rows, and its summary.
- Zone snapshots, `recent` and `pipeline_recent`: the same rings read another way.
- EntryGate.RunStaysWithin: limits are fixed during a run and usage is fresh at every gate; `EntryGate.GateReadsTheBook` ties fresh usage to the book. A reassignment is a departure from one desk and an arrival at the other.
- GateCapacity.AccountLimitKeptIff: capacities are those of runs in which nothing arrives past the gate; with arrivals `EntryGate.RunStaysWithin` bounds what is held.
- ConflictPolicy.PortfolioIsConflictFree: for one snapshot; a later refresh may make two open positions conflict.
