/** The Fast desk's worker reconciliation: which symbols get a worker, in which role. */
module FastDesk {
  import opened Wrappers
  import opened MarketState
  import opened Subscriptions
  import ChartRegistry
  import Ownership
  import PySeq
  import Symbols

  // ---- Entry symbols ----

  datatype Reason = MarketClosed | NoSessionData | SessionNotEnabled

  /** What the session registry and the clock say when a pass begins. */
  datatype Gates = Gates(groupsKnown: bool, listed: string -> bool, tradeOpen: string -> bool, sessionEnabled: bool)
  {
    /** Why a symbol may not be entered now; a broker that has reported nothing yet stops nothing. */
    function Rejects(symbol: string): Option<Reason> {
      if listed(Symbols.Upper(symbol)) && !tradeOpen(symbol) then Some(MarketClosed)
      else if !listed(Symbols.Upper(symbol)) && groupsKnown then Some(NoSessionData)
      else if !sessionEnabled then Some(SessionNotEnabled)
      else None
    }

    /** The facts behind each reason: a schedule that is closed now; schedules for others only; or
        a session that is off although the schedule, or having none at all, would let it pass. */
    predicate Explains(symbol: string, why: Reason) {
      match why
      case MarketClosed => listed(Symbols.Upper(symbol)) && !tradeOpen(symbol)
      case NoSessionData => !listed(Symbols.Upper(symbol)) && groupsKnown
      case SessionNotEnabled =>
        !sessionEnabled && if listed(Symbols.Upper(symbol)) then tradeOpen(symbol) else !groupsKnown
    }

    /** A symbol passes exactly if the session is on and its own schedule is open, or there are no
        schedules yet; otherwise exactly one reason explains why it does not. */
    lemma RejectsIff(symbol: string)
      ensures Rejects(symbol).None? <==>
        sessionEnabled && if listed(Symbols.Upper(symbol)) then tradeOpen(symbol) else !groupsKnown
      ensures forall why :: Rejects(symbol) == Some(why) <==> Explains(symbol, why)
    {
    }
  }

  function Passing(symbols: seq<string>, gates: Gates): (r: seq<string>)
    ensures forall s :: s in r <==> s in symbols && gates.Rejects(s).None?
    ensures PySeq.Distinct(symbols) ==> PySeq.Distinct(r)
  {
    if symbols == [] then []
    else
      var r, s := Passing(symbols[..|symbols| - 1], gates), symbols[|symbols| - 1];
      if gates.Rejects(s).None? then r + [s] else r
  }

  function EntrySymbols(raw: seq<string>, gates: Gates): seq<string> {
    Passing(NormalizedUnique(raw), gates)
  }

  predicate RejectedRight(rejected: map<string, Reason>, met: seq<string>, gates: Gates, s: string) {
    if s in rejected then s in met && gates.Rejects(s) == Some(rejected[s])
    else s in met ==> gates.Rejects(s).None?
  }

  /** What has been decided for the symbols met so far. */
  ghost predicate Decided(ordered: seq<string>, rejected: map<string, Reason>, met: seq<string>, gates: Gates) {
    ordered == Passing(met, gates) && forall s :: RejectedRight(rejected, met, gates, s)
  }

  lemma DecidedStep(ordered: seq<string>, rejected: map<string, Reason>, met: seq<string>, gates: Gates, s: string)
    requires Decided(ordered, rejected, met, gates)
    ensures var why := gates.Rejects(s);
      if why.None? then Decided(ordered + [s], rejected, met + [s], gates)
      else Decided(ordered, rejected[s := why.value], met + [s], gates)
  {
    assert (met + [s])[..|met|] == met;
    var why := gates.Rejects(s);
    var after := if why.None? then rejected else rejected[s := why.value];
    forall x ensures RejectedRight(after, met + [s], gates, x) { assert RejectedRight(rejected, met, gates, x); }
  }

  /** Each decision, and the facts behind it. */
  ghost predicate Justified(ordered: seq<string>, rejected: map<string, Reason>, gates: Gates) {
    && (forall s :: s in ordered ==>
          gates.sessionEnabled && if gates.listed(Symbols.Upper(s)) then gates.tradeOpen(s) else !gates.groupsKnown)
    && (forall s :: s in rejected ==> gates.Explains(s, rejected[s]))
  }

  lemma DecidedIsJustified(ordered: seq<string>, rejected: map<string, Reason>, met: seq<string>, gates: Gates)
    requires Decided(ordered, rejected, met, gates)
    ensures Justified(ordered, rejected, gates)
    ensures PySeq.Elements(ordered) + rejected.Keys == PySeq.Elements(met) && PySeq.Elements(ordered) !! rejected.Keys
  {
    forall s | s in ordered
      ensures gates.sessionEnabled && if gates.listed(Symbols.Upper(s)) then gates.tradeOpen(s) else !gates.groupsKnown
    {
      gates.RejectsIff(s);
    }
    forall s ensures s in rejected ==> gates.Explains(s, rejected[s]) {
      assert RejectedRight(rejected, met, gates, s);
      gates.RejectsIff(s);
    }
    forall s ensures s in ordered || s in rejected <==> s in met { assert RejectedRight(rejected, met, gates, s); }
    forall s | s in ordered ensures s !in rejected { assert RejectedRight(rejected, met, gates, s); }
  }

  /** `_desired_symbols`: every usable symbol of the list is either entered, in list order, or
      rejected with its reason. */
  method DesiredSymbols(raw: seq<string>, gates: Gates) returns (ordered: seq<string>, rejected: map<string, Reason>)
    ensures Decided(ordered, rejected, NormalizedUnique(raw), gates)
    ensures PySeq.Elements(ordered) + rejected.Keys == Named(raw) && PySeq.Elements(ordered) !! rejected.Keys
    ensures Justified(ordered, rejected, gates)
  {
    ordered, rejected := [], map[];
    var seen: seq<string> := [];
    for i := 0 to |raw|
      invariant seen == NormalizedUnique(raw[..i])
      invariant Decided(ordered, rejected, seen, gates)
    {
      assert raw[..i + 1][..i] == raw[..i];
      var symbol := Symbols.Normalize(raw[i]);
      if symbol == "" || symbol in seen || !Symbols.IsOperable(symbol) { continue; }
      DecidedStep(ordered, rejected, seen, gates, symbol);
      seen := seen + [symbol];
      if gates.listed(Symbols.Upper(symbol)) {
        if !gates.tradeOpen(symbol) {
          rejected := rejected[symbol := MarketClosed];
          continue;
        }
      } else if gates.groupsKnown {
        rejected := rejected[symbol := NoSessionData];
        continue;
      }
      if !gates.sessionEnabled {
        rejected := rejected[symbol := SessionNotEnabled];
        continue;
      }
      ordered := ordered + [symbol];
    }
    assert raw[..|raw|] == raw;
    NormalizedUniqueIs(raw);
    DecidedIsJustified(ordered, rejected, seen, gates);
  }

  // ---- Custody symbols ----

  /** An open ownership row as text; `metadata` is the symbol its metadata names, if any. */
  datatype Row = Row(owner: string, status: string, symbol: string, metadata: Option<string>)
  {
    predicate InCustody() {
      || Symbols.Lower(Symbols.Strip(owner)) == "fast"
      || Symbols.Lower(Symbols.Strip(status)) in {"fast_owned", "inherited_fast"}
    }

    function Name(): string {
      var s := Symbols.Normalize(symbol);
      if s == "" && metadata.Some? then Symbols.Normalize(metadata.value) else s
    }
  }

  /** The symbols the rows in custody name. */
  function CustodyNames(rows: seq<Row>): (r: seq<string>)
    ensures forall s :: s in r <==> exists row :: row in rows && row.InCustody() && row.Name() == s
  {
    if rows == [] then []
    else
      var r, row := CustodyNames(rows[..|rows| - 1]), rows[|rows| - 1];
      assert rows == rows[..|rows| - 1] + [row];
      if row.InCustody() then r + [row.Name()] else r
  }

  /** How an ownership row names its owner and its status. */
  function OwnerText(o: Ownership.Owner): string {
    match o
    case Fast => "fast"
    case Smc => "smc"
    case Unassigned => "unassigned"
  }

  function StatusText(s: Ownership.Status): string {
    match s
    case FastOwned => "fast_owned"
    case SmcOwned => "smc_owned"
    case InheritedFast => "inherited_fast"
    case NoOwner => "unassigned"
  }

  lemma PlainText(s: string)
    requires s != "" && !Symbols.IsSpace(s[0]) && !Symbols.IsSpace(s[|s| - 1])
    requires forall i :: 0 <= i < |s| ==> !('A' <= s[i] <= 'Z')
    ensures Symbols.Lower(Symbols.Strip(s)) == s
  {
    Ownership.PlainName(s);
  }

  lemma OwnerTextIsPlain(o: Ownership.Owner)
    ensures Symbols.Lower(Symbols.Strip(OwnerText(o))) == OwnerText(o)
  {
    match o
    case Fast => PlainText("fast");
    case Smc => PlainText("smc");
    case Unassigned => PlainText("unassigned");
  }

  lemma StatusTextIsPlain(s: Ownership.Status)
    ensures Symbols.Lower(Symbols.Strip(StatusText(s))) == StatusText(s)
  {
    match s
    case FastOwned => PlainText("fast_owned");
    case SmcOwned => PlainText("smc_owned");
    case InheritedFast => PlainText("inherited_fast");
    case NoOwner => PlainText("unassigned");
  }

  /** The rows in custody are the rows of the fast desk: what the ownership table calls its own. */
  lemma CustodyIsFastOwnership(r: Ownership.Row, symbol: string, metadata: Option<string>)
    requires Ownership.Coherent(r)
    ensures Row(OwnerText(r.owner), StatusText(r.status), symbol, metadata).InCustody() <==> r.owner == Ownership.Fast
  {
    OwnerTextIsPlain(r.owner);
    StatusTextIsPlain(r.status);
  }

  /** Where owner and status disagree, either is enough. */
  lemma EitherIsEnough(owner: string, status: string, o: Ownership.Owner, s: Ownership.Status, symbol: string)
    ensures Row(owner, StatusText(s), symbol, None).InCustody() <==>
      Ownership.OwnerOf(owner) == Ownership.Fast || s in {Ownership.FastOwned, Ownership.InheritedFast}
    ensures o == Ownership.Fast ==> Row(OwnerText(o), status, symbol, None).InCustody()
  {
    OwnerTextIsPlain(o);
    StatusTextIsPlain(s);
  }

  /** A row is named by its symbol; what its metadata says counts only if the symbol is blank. */
  lemma MetadataIsFallback(row: Row, m: Option<string>)
    ensures Symbols.Normalize(row.symbol) != "" ==> row.(metadata := m).Name() == Symbols.Normalize(row.symbol)
    ensures Symbols.Normalize(row.symbol) == "" && m.Some? ==> row.(metadata := m).Name() == Symbols.Normalize(m.value)
  {
  }

  lemma NameIsNormal(row: Row)
    ensures Symbols.Normalize(row.Name()) == row.Name()
  {
    Symbols.NormalizeIdempotent(row.symbol);
    if row.metadata.Some? { Symbols.NormalizeIdempotent(row.metadata.value); }
  }

  lemma NamedNext(names: seq<string>, name: string)
    requires Symbols.Normalize(name) == name
    ensures var seen := NormalizedUnique(names);
      NormalizedUnique(names + [name]) ==
        if name == "" || name in seen || !Symbols.IsOperable(name) then seen else seen + [name]
  {
    assert (names + [name])[..|names|] == names;
  }

  /** `_forced_custody_symbols`: the usable symbols of the rows in custody, once each. */
  method ForcedCustodySymbols(rows: seq<Row>) returns (ordered: seq<string>)
    ensures ordered == NormalizedUnique(CustodyNames(rows))
  {
    ordered := [];
    var seen: set<string> := {};
    for i := 0 to |rows|
      invariant ordered == NormalizedUnique(CustodyNames(rows[..i])) && seen == PySeq.Elements(ordered)
    {
      var row := rows[i];
      assert rows[..i + 1][..i] == rows[..i];
      if !row.InCustody() { continue; }
      var symbol := Symbols.Normalize(row.symbol);
      if symbol == "" && row.metadata.Some? {
        symbol := Symbols.Normalize(row.metadata.value);
      }
      NameIsNormal(row);
      NamedNext(CustodyNames(rows[..i]), symbol);
      if symbol == "" || symbol in seen || !Symbols.IsOperable(symbol) { continue; }
      PySeq.ElementsAppend(ordered, symbol);
      ordered, seen := ordered + [symbol], seen + {symbol};
    }
    assert rows[..|rows|] == rows;
  }

  // ---- The wanted workers ----

  datatype Mode = Mode(allowEntries: bool, transient: bool)

  /** Every symbol of a list, normalised, tradable or not. */
  function Assigned(raw: seq<string>): set<string> {
    set r | r in raw && Symbols.Normalize(r) != "" :: Symbols.Normalize(r)
  }

  /** What one pass works from: assigned symbols, market gates and open ownership rows. */
  datatype Inputs = Inputs(raw: seq<string>, gates: Gates, rows: seq<Row>)
  {
    function Entry(): seq<string> { EntrySymbols(raw, gates) }

    function Forced(): seq<string> { NormalizedUnique(CustodyNames(rows)) }

    function ModeOf(s: string): Mode {
      Mode(s in Entry(), s in Forced() && s !in Assigned(raw))
    }

    /** The entry symbols, then the custody symbols that are not among them. */
    function Desired(): seq<string> {
      Entry() + Within(Forced(), PySeq.Elements(Forced()) - PySeq.Elements(Entry()))
    }

    /** The workers a pass wants, with their roles. */
    function Wanted(): map<string, Mode> {
      map s | s in Desired() :: ModeOf(s)
    }

    lemma WantedAreDesired()
      ensures Wanted().Keys == PySeq.Elements(Desired())
    {
    }

    lemma DesiredIsClean()
      ensures CleanList(Desired())
      ensures forall s :: s in Desired() <==> s in Entry() || s in Forced()
    {
      NormalizedUniqueIsClean(raw);
      NormalizedUniqueIsClean(CustodyNames(rows));
      var extra := Within(Forced(), PySeq.Elements(Forced()) - PySeq.Elements(Entry()));
      forall i | 0 <= i < |Desired()| ensures Symbols.Tradable(Desired()[i]) {
        assert Desired()[i] in Entry() || Desired()[i] in Forced();
        if Desired()[i] in Entry() { InList(NormalizedUnique(raw), Desired()[i]); } else { InList(Forced(), Desired()[i]); }
      }
      forall i, j | 0 <= i < j < |Desired()| ensures Desired()[i] != Desired()[j] {
        if i < |Entry()| <= j { assert Desired()[i] in Entry() && Desired()[j] in extra; }
      }
    }

    /** A symbol is entered exactly if it is assigned and operable, the session is on, and its own
        schedule is open, or there are no schedules yet. */
    lemma EntryIff(s: string)
      ensures s in Entry() <==>
        && s in Named(raw) && gates.sessionEnabled
        && if gates.listed(Symbols.Upper(s)) then gates.tradeOpen(s) else !gates.groupsKnown
    {
      NormalizedUniqueIsClean(raw);
      gates.RejectsIff(s);
    }

    /** Entering is only allowed on assigned symbols, so no entry worker is transient. */
    lemma EntryIsNeverTransient(s: string)
      requires ModeOf(s).allowEntries
      ensures !ModeOf(s).transient
    {
      NormalizedUniqueIsClean(raw);
      assert s in Named(raw);
    }

    /** A worker may enter exactly on an assigned symbol whose gates are open, and is transient
        exactly if its symbol is not assigned. */
    lemma ModeIff(s: string)
      requires s in Desired()
      ensures Wanted()[s].allowEntries <==>
        && s in Named(raw) && gates.sessionEnabled
        && if gates.listed(Symbols.Upper(s)) then gates.tradeOpen(s) else !gates.groupsKnown
      ensures Wanted()[s].transient <==> s !in Assigned(raw)
    {
      DesiredIsClean();
      EntryIff(s);
    }

    /** An open row in custody gets its symbol a worker, whatever the gates and the list say. */
    lemma CustodyBeatsGates(row: Row)
      requires row in rows && row.InCustody() && Symbols.IsOperable(row.Name())
      ensures row.Name() in Desired()
    {
      DesiredIsClean();
      NameIsNormal(row);
      NormalizedUniqueIsClean(CustodyNames(rows));
      assert row.Name() in CustodyNames(rows);
      assert row.Name() in Named(CustodyNames(rows));
    }

    /** Exactly the entry and custody symbols have a worker, and each for a reason: an assigned
        symbol whose gates are open, or an open row in custody. */
    lemma DesiredIff(s: string)
      ensures s in Desired() <==>
        || (s in Named(raw) && gates.sessionEnabled
            && if gates.listed(Symbols.Upper(s)) then gates.tradeOpen(s) else !gates.groupsKnown)
        || (Symbols.IsOperable(s) && exists row :: row in rows && row.InCustody() && row.Name() == s)
    {
      DesiredIsClean();
      EntryIff(s);
      var names := CustodyNames(rows);
      NormalizedUniqueIsClean(names);
      if s in Named(names) {
        var r :| r in names && Symbols.IsOperable(r) && Symbols.Normalize(r) == s;
        var row :| row in rows && row.InCustody() && row.Name() == r;
        NameIsNormal(row);
      }
      if row :| row in rows && row.InCustody() && row.Name() == s && Symbols.IsOperable(s) {
        CustodyBeatsGates(row);
      }
    }
  }

  lemma InList(symbols: seq<string>, s: string)
    requires CleanList(symbols) && s in symbols
    ensures Symbols.Tradable(s)
  {
  }

  // ---- The running workers ----

  /** A started worker task: its symbol, when it was started, and its role. */
  datatype Task = Task(symbol: string, serial: nat, mode: Mode)

  predicate Works(tasks: map<string, Task>, s: string) {
    s in tasks
  }

  /** The two worker dictionaries agree, and the running tasks are exactly the listed ones. */
  ghost predicate Coherent(tasks: map<string, Task>, modes: map<string, Mode>, running: set<Task>, started: nat) {
    && tasks.Keys == modes.Keys
    && (forall s {:trigger Works(tasks, s)} :: Works(tasks, s) ==>
          Symbols.Tradable(s) && tasks[s].symbol == s && tasks[s].mode == modes[s]
          && tasks[s].serial < started && tasks[s] in running)
    && (forall t :: t in running ==> Works(tasks, t.symbol) && tasks[t.symbol] == t)
  }

  lemma CoherentStop(tasks: map<string, Task>, modes: map<string, Mode>, running: set<Task>, started: nat, s: string)
    requires Coherent(tasks, modes, running, started) && s in tasks
    ensures Coherent(tasks - {s}, modes - {s}, running - {tasks[s]}, started)
    ensures Symbols.Tradable(s)
  {
    assert Works(tasks, s);
    forall x | Works(tasks - {s}, x) ensures Works(tasks, x) && tasks[x] != tasks[s] { assert Works(tasks, x); }
    forall t | t in running - {tasks[s]} ensures Works(tasks - {s}, t.symbol) { assert Works(tasks, t.symbol); }
  }

  lemma CoherentStart(tasks: map<string, Task>, modes: map<string, Mode>, running: set<Task>, started: nat,
                      s: string, mode: Mode)
    requires Coherent(tasks, modes, running, started) && s !in tasks && Symbols.Tradable(s)
    ensures var t := Task(s, started, mode);
      Coherent(tasks[s := t], modes[s := mode], running + {t}, started + 1)
  {
    var t := Task(s, started, mode);
    var after := tasks[s := t];
    forall x | Works(after, x)
      ensures Symbols.Tradable(x) && after[x].symbol == x && after[x].mode == modes[s := mode][x]
      ensures after[x].serial < started + 1 && after[x] in running + {t}
    {
      if x != s { assert Works(tasks, x); }
    }
    forall u | u in running ensures Works(after, u.symbol) && after[u.symbol] == u { assert Works(tasks, u.symbol); }
  }

  /** A wanted worker runs in its wanted role: the same task as before if the role is the same,
      a newly started one otherwise. */
  ghost predicate Placed(before: map<string, Task>, started: nat, after: map<string, Task>, s: string, mode: Mode) {
    && s in after && after[s].mode == mode
    && (if s in before && before[s].mode == mode then after[s] == before[s] else after[s].serial >= started)
  }

  /** What a pass makes of the workers: the wanted ones and no others. */
  ghost predicate Reconciled(before: map<string, Task>, started: nat, after: map<string, Task>, wanted: map<string, Mode>) {
    after.Keys == wanted.Keys && forall s :: s in wanted ==> Placed(before, started, after, s, wanted[s])
  }

  /** The transient workers a pass stops or restarts: their chart memory is freed. */
  ghost function Freed(before: map<string, Task>, wanted: map<string, Mode>): set<string> {
    set s | s in before && before[s].mode.transient && (s !in wanted || wanted[s] != before[s].mode)
  }

  /** The second loop of a pass, once it has seen `done`. */
  ghost predicate Placing(before: map<string, Task>, started: nat, after: map<string, Task>,
                          wanted: map<string, Mode>, done: seq<string>) {
    && after.Keys == before.Keys + PySeq.Elements(done)
    && (forall s :: s in done ==> s in wanted && Placed(before, started, after, s, wanted[s]))
    && (forall s :: s in before && s !in done ==> after[s] == before[s])
  }

  /** The workers seen so far whose transient predecessor was restarted. */
  ghost function Restarted(before: map<string, Task>, wanted: map<string, Mode>, done: seq<string>): set<string> {
    set s | s in done && s in before && s in wanted && before[s].mode.transient && wanted[s] != before[s].mode
  }

  lemma PlacingStep(before: map<string, Task>, started: nat, after: map<string, Task>, wanted: map<string, Mode>,
                    done: seq<string>, s: string, next: map<string, Task>)
    requires Placing(before, started, after, wanted, done) && s in wanted && s !in done
    requires forall x :: x in after && x != s ==> x in next && next[x] == after[x]
    requires s in next && next.Keys == after.Keys + {s}
    requires if s in after && after[s].mode == wanted[s] then next[s] == after[s]
             else next[s].mode == wanted[s] && next[s].serial >= started
    ensures Placing(before, started, next, wanted, done + [s])
  {
    PySeq.ElementsAppend(done, s);
    assert s in after ==> s in before;
  }

  class FastDeskWorkers {
    const market: MarketStateService
    var tasks: map<string, Task>
    var modes: map<string, Mode>
    var started: nat
    ghost var running: set<Task>

    ghost predicate Valid()
      reads this, market
    {
      market.Valid() && Coherent(tasks, modes, running, started)
    }

    constructor (market: MarketStateService)
      requires market.Valid()
      ensures Valid() && this.market == market && tasks == map[] && running == {}
    {
      this.market, tasks, modes, started, running := market, map[], map[], 0, {};
    }

    /** Cancels a worker and forgets it; a transient worker's chart memory goes with it. */
    method Stop(symbol: string)
      requires Valid() && symbol in tasks
      modifies this, market
      ensures Valid() && started == old(started)
      ensures tasks == old(tasks) - {symbol} && modes == old(modes) - {symbol}
      ensures running == old(running) - {old(tasks)[symbol]}
      ensures market.states == ChartRegistry.SyncedRam(old(market.states), if old(modes)[symbol].transient then {symbol} else {})
    {
      CoherentStop(tasks, modes, running, started, symbol);
      var mode := modes[symbol];
      running := running - {tasks[symbol]};
      tasks, modes := tasks - {symbol}, modes - {symbol};
      RemovalIsSync(market.states, symbol);
      if mode.transient {
        var _ := market.RemoveSymbol(symbol);
      }
    }

    method Start(symbol: string, mode: Mode)
      requires Valid() && symbol !in tasks && Symbols.Tradable(symbol)
      modifies this
      ensures Valid() && started == old(started) + 1
      ensures tasks == old(tasks)[symbol := Task(symbol, old(started), mode)] && modes == old(modes)[symbol := mode]
    {
      CoherentStart(tasks, modes, running, started, symbol, mode);
      running := running + {Task(symbol, started, mode)};
      tasks, modes, started := tasks[symbol := Task(symbol, started, mode)], modes[symbol := mode], started + 1;
    }

    /** The first loop of a pass: workers no longer wanted are stopped. */
    method StopUnwanted(wanted: set<string>)
      requires Valid()
      modifies this, market
      ensures Valid() && started == old(started)
      ensures StoppedAll(old(tasks), old(modes), old(market.states), tasks, modes, market.states, old(tasks).Keys - wanted)
    {
      ghost var all, roles, ram := tasks, modes, market.states;
      var todo := tasks.Keys;
      ghost var gone: set<string> := {};
      NoneStopped(all, roles, ram);
      while todo != {}
        invariant Valid() && started == old(started)
        invariant todo <= all.Keys && todo !! gone && gone == (all.Keys - wanted) - todo
        invariant StoppedAll(all, roles, ram, tasks, modes, market.states, gone)
        decreases |todo|
      {
        var symbol :| symbol in todo;
        todo := todo - {symbol};
        if symbol in wanted { continue; }
        Stop(symbol);
        OneMoreGone(all, roles, ram, gone, symbol);
        gone := gone + {symbol};
      }
      assert gone == all.Keys - wanted;
    }

    /** One turn of the second loop. */
    method Place(symbol: string, mode: Mode)
      requires Valid() && Symbols.Tradable(symbol)
      modifies this, market
      ensures Valid() && started >= old(started) && tasks.Keys == old(tasks).Keys + {symbol}
      ensures forall x :: x in old(tasks) && x != symbol ==> tasks[x] == old(tasks)[x]
      ensures if symbol in old(tasks) && old(tasks)[symbol].mode == mode then tasks[symbol] == old(tasks)[symbol]
              else tasks[symbol].mode == mode && tasks[symbol].serial >= old(started)
      ensures market.states == ChartRegistry.SyncedRam(old(market.states),
        if symbol in old(tasks) && old(tasks)[symbol].mode.transient && old(tasks)[symbol].mode != mode then {symbol} else {})
    {
      assert symbol in tasks ==> Works(tasks, symbol);
      ghost var ram := market.states;
      assert ChartRegistry.SyncedRam(ram, {}) == ram;
      if symbol in tasks && symbol in modes && modes[symbol] == mode { return; }
      if symbol in tasks {
        Stop(symbol);
      }
      Start(symbol, mode);
    }

    /** The second loop of a pass: wanted workers are started, or restarted in a new role. */
    method StartWanted(desired: seq<string>, wanted: map<string, Mode>)
      requires Valid() && CleanList(desired) && wanted.Keys == PySeq.Elements(desired)
      modifies this, market
      ensures Valid() && Placing(old(tasks), old(started), tasks, wanted, desired)
      ensures market.states == ChartRegistry.SyncedRam(old(market.states), Restarted(old(tasks), wanted, desired))
    {
      ghost var before, ram := tasks, market.states;
      assert Restarted(before, wanted, []) == {} && ChartRegistry.SyncedRam(ram, {}) == ram;
      for i := 0 to |desired|
        invariant Valid() && started >= old(started)
        invariant Placing(before, old(started), tasks, wanted, desired[..i])
        invariant market.states == ChartRegistry.SyncedRam(ram, Restarted(before, wanted, desired[..i]))
      {
        var symbol := desired[i];
        assert desired[..i + 1] == desired[..i] + [symbol];
        assert symbol in PySeq.Elements(desired);
        ghost var mid := tasks;
        Place(symbol, wanted[symbol]);
        PlacingStep(before, old(started), mid, wanted, desired[..i], symbol, tasks);
        RestartedStep(before, mid, wanted, desired[..i], symbol, ram);
      }
      assert desired[..|desired|] == desired;
    }

    /** One reconcile pass. Afterwards the running tasks are the wanted workers in their wanted
        roles and nothing else, roles that did not change kept their task, and exactly the
        transient workers that were stopped or restarted lost their chart memory. */
    method Pass(input: Inputs)
      requires Valid()
      modifies this, market
      ensures Valid() && modes == input.Wanted()
      ensures Reconciled(old(tasks), old(started), tasks, input.Wanted())
      ensures running == set s | s in tasks :: tasks[s]
      ensures forall s :: s in modes ==>
        (modes[s].allowEntries <==>
          && s in Named(input.raw) && input.gates.sessionEnabled
          && if input.gates.listed(Symbols.Upper(s)) then input.gates.tradeOpen(s) else !input.gates.groupsKnown)
      ensures forall s :: s in modes ==> (modes[s].transient <==> s !in Assigned(input.raw))
      ensures market.states == ChartRegistry.SyncedRam(old(market.states), Freed(old(tasks), input.Wanted()))
    {
      ghost var wanted := input.Wanted();
      var entry, rejected := DesiredSymbols(input.raw, input.gates);
      var forced := ForcedCustodySymbols(input.rows);
      var desired := entry + Within(forced, PySeq.Elements(forced) - PySeq.Elements(entry));
      input.DesiredIsClean();
      input.WantedAreDesired();
      RunningAreTasks(tasks, modes, running, started);
      StopUnwanted(PySeq.Elements(desired));
      StartWanted(desired, input.Wanted());
      PassReconciles(old(tasks), old(started), tasks, wanted, desired);
      PassFrees(old(tasks), old(modes), wanted, desired, old(market.states));
      RunningAreTasks(tasks, modes, running, started);
      ReconciledModes(old(tasks), old(started), tasks, modes, running, started, wanted);
      forall s | s in wanted { input.ModeIff(s); }
    }

    /** The end of the service: no task is left running and no transient memory is kept. */
    method Shutdown()
      requires Valid()
      modifies this, market
      ensures Valid() && running == {} && tasks == map[]
      ensures market.states == ChartRegistry.SyncedRam(old(market.states), TransientOf(old(modes), old(modes).Keys))
    {
      StopUnwanted({});
      assert old(tasks).Keys - {} == old(modes).Keys;
      assert tasks == map[];
      assert forall t :: t in running ==> Works(tasks, t.symbol);
    }
  }

  function TransientOf(modes: map<string, Mode>, gone: set<string>): set<string> {
    set s | s in modes && s in gone && modes[s].transient
  }

  lemma RestartedStep<V>(before: map<string, Task>, mid: map<string, Task>, wanted: map<string, Mode>,
                         done: seq<string>, s: string, ram: map<Key, V>)
    requires s !in done && s in wanted && (s in mid <==> s in before) && (s in mid ==> mid[s] == before[s])
    ensures ChartRegistry.SyncedRam(ChartRegistry.SyncedRam(ram, Restarted(before, wanted, done)),
        if s in mid && mid[s].mode.transient && mid[s].mode != wanted[s] then {s} else {})
      == ChartRegistry.SyncedRam(ram, Restarted(before, wanted, done + [s]))
  {
    var freed := if s in mid && mid[s].mode.transient && mid[s].mode != wanted[s] then {s} else {};
    ChartRegistry.SyncedRamTwice(ram, Restarted(before, wanted, done), freed);
    assert Restarted(before, wanted, done + [s]) == Restarted(before, wanted, done) + freed;
  }

  lemma RemovalIsSync<V>(ram: map<Key, V>, s: string)
    requires Symbols.Tradable(s)
    ensures Without(ram, Symbols.Upper(s)) == ChartRegistry.SyncedRam(ram, {s})
    ensures ram == ChartRegistry.SyncedRam(ram, {})
  {
    ChartRegistry.NormalIsUpper(s);
  }

  /** The state after stopping the workers in `gone`. */
  ghost predicate StoppedAll<V>(all: map<string, Task>, roles: map<string, Mode>, ram: map<Key, V>,
                                tasks: map<string, Task>, modes: map<string, Mode>, states: map<Key, V>, gone: set<string>) {
    && all.Keys == roles.Keys
    && tasks == all - gone && modes == roles - gone
    && states == ChartRegistry.SyncedRam(ram, TransientOf(roles, gone))
  }

  lemma NoneStopped<V>(all: map<string, Task>, roles: map<string, Mode>, ram: map<Key, V>)
    requires all.Keys == roles.Keys
    ensures StoppedAll(all, roles, ram, all, roles, ram, {})
  {
    assert all - {} == all && roles - {} == roles && TransientOf(roles, {}) == {};
    assert ChartRegistry.SyncedRam(ram, {}) == ram;
  }

  lemma OneMoreGone<V>(all: map<string, Task>, roles: map<string, Mode>, ram: map<Key, V>, gone: set<string>, s: string)
    requires all.Keys == roles.Keys && s in all && s !in gone
    ensures var freed := if roles[s].transient then {s} else {};
      StoppedAll(all, roles, ram, (all - gone) - {s}, (roles - gone) - {s},
        ChartRegistry.SyncedRam(ChartRegistry.SyncedRam(ram, TransientOf(roles, gone)), freed), gone + {s})
  {
    ChartRegistry.MinusTwice(all, gone, {s});
    ChartRegistry.MinusTwice(roles, gone, {s});
    var freed := if roles[s].transient then {s} else {};
    ChartRegistry.SyncedRamTwice(ram, TransientOf(roles, gone), freed);
    assert TransientOf(roles, gone + {s}) == TransientOf(roles, gone) + freed;
  }

  /** Both loops together. */
  lemma PassReconciles(before: map<string, Task>, started: nat, after: map<string, Task>, wanted: map<string, Mode>,
                       desired: seq<string>)
    requires wanted.Keys == PySeq.Elements(desired)
    requires Placing(before - (before.Keys - wanted.Keys), started, after, wanted, desired)
    ensures Reconciled(before, started, after, wanted)
  {
    assert forall s :: s in wanted <==> s in PySeq.Elements(desired);
  }

  lemma PassFrees<V>(before: map<string, Task>, roles: map<string, Mode>, wanted: map<string, Mode>, desired: seq<string>,
                     ram: map<Key, V>)
    requires wanted.Keys == PySeq.Elements(desired) && before.Keys == roles.Keys
    requires forall s :: s in before ==> before[s].mode == roles[s]
    ensures ChartRegistry.SyncedRam(
        ChartRegistry.SyncedRam(ram, TransientOf(roles, before.Keys - wanted.Keys)),
        Restarted(before - (before.Keys - wanted.Keys), wanted, desired))
      == ChartRegistry.SyncedRam(ram, Freed(before, wanted))
  {
    var stopped, mid := TransientOf(roles, before.Keys - wanted.Keys), before - (before.Keys - wanted.Keys);
    ChartRegistry.SyncedRamTwice(ram, stopped, Restarted(mid, wanted, desired));
    assert forall s :: s in desired <==> s in PySeq.Elements(desired);
    assert stopped + Restarted(mid, wanted, desired) == Freed(before, wanted);
  }

  lemma RunningAreTasks(tasks: map<string, Task>, modes: map<string, Mode>, running: set<Task>, started: nat)
    requires Coherent(tasks, modes, running, started)
    ensures running == set s | s in tasks :: tasks[s]
    ensures forall s :: s in tasks ==> tasks[s].mode == modes[s]
  {
    forall s | s in tasks ensures tasks[s] in running && tasks[s].mode == modes[s] { assert Works(tasks, s); }
    forall t | t in running ensures t in set s | s in tasks :: tasks[s] { assert Works(tasks, t.symbol); }
  }

  lemma ReconciledModes(before: map<string, Task>, from: nat, tasks: map<string, Task>, modes: map<string, Mode>,
                        running: set<Task>, started: nat, wanted: map<string, Mode>)
    requires Coherent(tasks, modes, running, started) && Reconciled(before, from, tasks, wanted)
    ensures modes == wanted
  {
    RunningAreTasks(tasks, modes, running, started);
    forall s | s in wanted ensures tasks[s].mode == wanted[s] { assert Placed(before, from, tasks, s, wanted[s]); }
    SameModes(tasks, modes, wanted);
  }

  lemma SameModes(tasks: map<string, Task>, modes: map<string, Mode>, wanted: map<string, Mode>)
    requires tasks.Keys == modes.Keys == wanted.Keys
    requires forall s :: s in tasks ==> tasks[s].mode == modes[s]
    requires forall s :: s in wanted ==> tasks[s].mode == wanted[s]
    ensures modes == wanted
  {
  }

  /** A pass that finds the same inputs again touches no worker and frees no memory. */
  lemma SecondPassChangesNothing(before: map<string, Task>, from: nat, after: map<string, Task>,
                                 later: nat, again: map<string, Task>, wanted: map<string, Mode>)
    requires Reconciled(before, from, after, wanted) && Reconciled(after, later, again, wanted)
    ensures again == after && Freed(after, wanted) == {}
  {
    forall s | s in wanted ensures again[s] == after[s] && after[s].mode == wanted[s] {
      assert Placed(before, from, after, s, wanted[s]);
      assert Placed(after, later, again, s, wanted[s]);
    }
  }

  /** A symbol that may be entered again after transient custody loses its chart memory in that
      very pass, although it is assigned now; no other entry symbol does. */
  lemma EntryMemoryFreedIff(before: map<string, Task>, input: Inputs, s: string)
    requires s in input.Entry()
    ensures s in Freed(before, input.Wanted()) <==> s in before && before[s].mode.transient
  {
    input.DesiredIsClean();
    input.EntryIsNeverTransient(s);
    assert input.Wanted()[s] == input.ModeOf(s);
  }

  /** A pass frees the memory of exactly those transient workers that it does not leave running as
      they were. */
  lemma FreedIff(before: map<string, Task>, from: nat, after: map<string, Task>, wanted: map<string, Mode>, s: string)
    requires Reconciled(before, from, after, wanted) && s in before && before[s].serial < from
    ensures s in Freed(before, wanted) <==> before[s].mode.transient && !(s in after && after[s] == before[s])
  {
    if s in wanted { assert Placed(before, from, after, s, wanted[s]); }
  }
}
