/** Whole runs of the entry gate: entries pass it, fills of pending orders do not. */
module EntryGate {
  import opened Wrappers
  import opened RiskLimits
  import opened RiskKernel
  import opened Ownership
  import Symbols

  /** An open position or a pending order of a desk; symbols are upper case. */
  datatype Op = Op(desk: Owner, symbol: string, pending: bool)

  ghost predicate ProperOp(op: Op) {
    op.desk != Unassigned && op.symbol != "" && Symbols.Upper(op.symbol) == op.symbol
  }

  /** The ways the gate slices the book. */
  datatype Slice = Everything | OfDesk(desk: Owner) | OfSymbol(symbol: string) | OfBoth(desk: Owner, symbol: string)

  predicate Matches(op: Op, sl: Slice) {
    match sl
    case Everything => true
    case OfDesk(d) => op.desk == d
    case OfSymbol(s) => op.symbol == s
    case OfBoth(d, s) => op.desk == d && op.symbol == s
  }

  function Hit(op: Op, sl: Slice, pending: bool): nat {
    if Matches(op, sl) && op.pending == pending then 1 else 0
  }

  function Count(book: seq<Op>, sl: Slice, pending: bool): nat {
    if book == [] then 0 else Count(book[..|book| - 1], sl, pending) + Hit(book[|book| - 1], sl, pending)
  }

  lemma {:induction false} CountAppend(a: seq<Op>, b: seq<Op>, sl: Slice, pending: bool)
    ensures Count(a + b, sl, pending) == Count(a, sl, pending) + Count(b, sl, pending)
  {
    if b == [] {
      assert a + b == a;
    } else {
      assert (a + b)[..|a + b| - 1] == a + b[..|b| - 1];
      CountAppend(a, b[..|b| - 1], sl, pending);
    }
  }

  lemma CountSplit(book: seq<Op>, i: nat, sl: Slice, pending: bool)
    requires i < |book|
    ensures Count(book, sl, pending) ==
      Count(book[..i], sl, pending) + Hit(book[i], sl, pending) + Count(book[i + 1..], sl, pending)
  {
    assert book == book[..i] + [book[i]] + book[i + 1..];
    CountAppend(book[..i] + [book[i]], book[i + 1..], sl, pending);
    CountAppend(book[..i], [book[i]], sl, pending);
    assert [book[i]][..0] == [];
  }

  lemma CountUpdate(book: seq<Op>, i: nat, op: Op, sl: Slice, pending: bool)
    requires i < |book|
    ensures Count(book[i := op], sl, pending) == Count(book, sl, pending) - Hit(book[i], sl, pending) + Hit(op, sl, pending)
  {
    CountSplit(book, i, sl, pending);
    CountSplit(book[i := op], i, sl, pending);
    assert book[i := op][..i] == book[..i] && book[i := op][i + 1..] == book[i + 1..];
  }

  lemma CountRemove(book: seq<Op>, i: nat, sl: Slice, pending: bool)
    requires i < |book|
    ensures Count(book[..i] + book[i + 1..], sl, pending) == Count(book, sl, pending) - Hit(book[i], sl, pending)
  {
    CountSplit(book, i, sl, pending);
    CountAppend(book[..i], book[i + 1..], sl, pending);
  }

  lemma {:induction false} SliceWithin(book: seq<Op>, a: Slice, b: Slice, pending: bool)
    requires forall op :: Matches(op, a) ==> Matches(op, b)
    ensures Count(book, a, pending) <= Count(book, b, pending)
  {
    if book != [] { SliceWithin(book[..|book| - 1], a, b, pending); }
  }

  // ---- The usage the gate reads ----

  function OpSymbols(book: seq<Op>): set<string> {
    set op | op in book :: op.symbol
  }

  /** The usage of an account holding exactly this book. */
  function UsageOf(book: seq<Op>, drawdown: real, gross: real): Usage {
    Usage(drawdown, Count(book, Everything, false), Count(book, Everything, true), gross,
          map s | s in OpSymbols(book) :: Count(book, OfSymbol(s), false),
          map[Fast := Count(book, OfDesk(Fast), false), Smc := Count(book, OfDesk(Smc), false)],
          map[Fast := Count(book, OfDesk(Fast), true), Smc := Count(book, OfDesk(Smc), true)])
  }

  lemma {:induction false} UnseenSymbol(book: seq<Op>, s: string)
    requires s !in OpSymbols(book)
    ensures Count(book, OfSymbol(s), false) == 0
  {
    if book != [] {
      assert book[|book| - 1].symbol in OpSymbols(book);
      UnseenSymbol(book[..|book| - 1], s);
    }
  }

  lemma SymbolUsage(book: seq<Op>, drawdown: real, gross: real, s: string)
    ensures Lookup(UsageOf(book, drawdown, gross).perSymbol, s) == Count(book, OfSymbol(s), false)
  {
    if s !in OpSymbols(book) { UnseenSymbol(book, s); }
  }

  /** The positions and the ownership rows an account holding this book reports. */
  function PositionsOf(book: seq<Op>): seq<OpenPosition> {
    if book == [] then []
    else
      var op := book[|book| - 1];
      PositionsOf(book[..|book| - 1]) + (if op.pending then [] else [OpenPosition(op.symbol, 1.0)])
  }

  function RowsOf(book: seq<Op>): seq<Row> {
    if book == [] then []
    else
      var op := book[|book| - 1];
      var row := Adopted(Uid(if op.pending then OrderOp else PositionOp, |book|), 0);
      RowsOf(book[..|book| - 1]) + [row.(owner := op.desk)]
  }

  lemma {:induction false} ReportedCounts(book: seq<Op>)
    requires forall op :: op in book ==> ProperOp(op)
    ensures |PositionsOf(book)| == Count(book, Everything, false)
    ensures forall s :: s != "" ==> SymbolCount(PositionsOf(book), s) == Count(book, OfSymbol(s), false)
    ensures forall o :: o != Unassigned ==> DeskCount(RowsOf(book), o, PositionOp) == Count(book, OfDesk(o), false)
    ensures forall o :: o != Unassigned ==> DeskCount(RowsOf(book), o, OrderOp) == Count(book, OfDesk(o), true)
  {
    if book != [] {
      var init, op := book[..|book| - 1], book[|book| - 1];
      ReportedCounts(init);
      assert ProperOp(op);
      var rows, ps := RowsOf(book), PositionsOf(book);
      assert rows[..|rows| - 1] == RowsOf(init);
      if op.pending {
        assert ps == PositionsOf(init);
      } else {
        assert ps[..|ps| - 1] == PositionsOf(init);
      }
    }
  }

  /** The figures one gate decision reads. */
  predicate SameReading(u: Usage, v: Usage, desk: Owner, s: string) {
    && u.drawdown == v.drawdown && u.positions == v.positions && u.pending == v.pending && u.gross == v.gross
    && Lookup(u.perSymbol, Symbols.Upper(s)) == Lookup(v.perSymbol, Symbols.Upper(s))
    && (desk != Unassigned ==>
          Lookup(u.deskPositions, desk) == Lookup(v.deskPositions, desk)
          && Lookup(u.deskPending, desk) == Lookup(v.deskPending, desk))
  }

  lemma SameReadingSameBlocks(u: Usage, v: Usage, g: Limits, d: Limits, tripped: bool, desk: Owner, s: string, r: Reason)
    requires SameReading(u, v, desk, s)
    ensures Blocks(g, d, tripped, u, desk, s, r) <==> Blocks(g, d, tripped, v, desk, s, r)
  {
  }

  /** The account and the open rows report the book: its totals, the positions in symbol s, and
      the operations of the desk. */
  predicate Reports(a: Account, rows: seq<Row>, book: seq<Op>, desk: Owner, s: string) {
    && CountOr(a.openCount, |a.positions|) == Count(book, Everything, false)
    && CountOr(a.pendingCount, a.orders) == Count(book, Everything, true)
    && SymbolCount(a.positions, s) == Count(book, OfSymbol(s), false)
    && (desk != Unassigned ==>
          DeskCount(rows, desk, PositionOp) == Count(book, OfDesk(desk), false)
          && DeskCount(rows, desk, OrderOp) == Count(book, OfDesk(desk), true))
  }

  /** What `update_usage` computes from an account that reports the book, whatever the volumes,
      tickets and orders in which it does, makes the gate decide as on the book itself. */
  lemma GateReadsTheBook(book: seq<Op>, u: Usage, a: Account, rows: seq<Row>, g: Limits, d: Limits, tripped: bool,
                         desk: Owner, s: string, r: Reason)
    requires IsUsage(u, a, rows) && Reports(a, rows, book, desk, Symbols.Upper(s))
    ensures Blocks(g, d, tripped, u, desk, s, r) <==> Blocks(g, d, tripped, UsageOf(book, a.drawdown, u.gross), desk, s, r)
  {
    SymbolUsage(book, a.drawdown, u.gross, Symbols.Upper(s));
    SameReadingSameBlocks(u, UsageOf(book, a.drawdown, u.gross), g, d, tripped, desk, s, r);
  }

  /** Every book has such a report: one position or order and one row for each operation. */
  lemma PlainReport(book: seq<Op>, a: Account, desk: Owner, s: string)
    requires forall op :: op in book ==> ProperOp(op)
    requires a.positions == PositionsOf(book) && a.orders == Count(book, Everything, true)
    requires a.openCount == None && a.pendingCount == None && s != ""
    ensures Reports(a, RowsOf(book), book, desk, s)
  {
    ReportedCounts(book);
  }

  // ---- Runs ----

  /** The limits in force during a run. */
  datatype Regime = Regime(global: Limits, fast: Limits, smc: Limits)

  function RegimeOf(s: Settings): Regime {
    Regime(GlobalLimits(s), FastLimits(s), SmcLimits(s))
  }

  function DeskRegime(r: Regime, desk: Owner): Limits {
    if desk == Fast then r.fast else r.smc
  }

  /** The book, the kill switch, and whether the kernel heeds it. */
  datatype Gate = Gate(book: seq<Op>, tripped: bool, enabled: bool)
  {
    predicate Stopped() { enabled && tripped }
  }

  datatype Step =
    | Enter(op: Op, drawdown: real, gross: real)
    | Fill(at: nat)
    | Leave(at: nat)
    | Arrive(op: Op)
    | Trip
    | Reset

  /** Entries need the gate's consent on fresh usage; fills, closes and cancels need nobody's, and
      neither do arrivals: operations opened by hand, or the position of a partly filled order. */
  ghost predicate Enabled(r: Regime, s: Gate, st: Step) {
    match st
    case Enter(op, drawdown, gross) =>
      ProperOp(op) && gross >= 0.0
      && Admitted(r.global, DeskRegime(r, op.desk), s.Stopped(), UsageOf(s.book, drawdown, gross), op.desk, op.symbol)
    case Fill(i) => i < |s.book| && s.book[i].pending
    case Leave(i) => i < |s.book|
    case Arrive(op) => ProperOp(op)
    case _ => true
  }

  function After(s: Gate, st: Step): Gate {
    match st
    case Enter(op, _, _) => s.(book := s.book + [op])
    case Fill(i) => if i < |s.book| then s.(book := s.book[i := s.book[i].(pending := false)]) else s
    case Leave(i) => if i < |s.book| then s.(book := s.book[..i] + s.book[i + 1..]) else s
    case Arrive(op) => s.(book := s.book + [op])
    case Trip => s.(tripped := true)
    case Reset => s.(tripped := false)
  }

  function Run(s: Gate, steps: seq<Step>): Gate
    decreases |steps|
  {
    if steps == [] then s else Run(After(s, steps[0]), steps[1..])
  }

  ghost predicate EnabledRun(r: Regime, s: Gate, steps: seq<Step>)
    decreases |steps|
  {
    steps != [] ==> Enabled(r, s, steps[0]) && EnabledRun(r, After(s, steps[0]), steps[1..])
  }

  /** How many operations of a slice arrive during a run. */
  function Arrivals(steps: seq<Step>, sl: Slice): nat {
    if steps == [] then 0
    else (if steps[0].Arrive? && Matches(steps[0].op, sl) then 1 else 0) + Arrivals(steps[1..], sl)
  }

  function Least(a: int, b: int): int { if a <= b then a else b }

  /** How many positions, and how many pending orders, the gate still lets a slice grow from. */
  function PositionCap(r: Regime, sl: Slice): int {
    var p := Truncate(r.global.positions);
    match sl
    case Everything => p
    case OfDesk(d) => Least(p, Truncate(DeskRegime(r, d).positions))
    case OfSymbol(_) => Least(p, Truncate(r.global.perSymbol))
    case OfBoth(d, _) => Least(Least(p, Truncate(r.global.perSymbol)), Truncate(DeskRegime(r, d).positions))
  }

  function PendingCap(r: Regime, sl: Slice): int {
    var o := Truncate(r.global.pending);
    match sl
    case OfDesk(d) => Least(o, Truncate(DeskRegime(r, d).pending))
    case OfBoth(d, _) => Least(o, Truncate(DeskRegime(r, d).pending))
    case _ => o
  }

  /** What a slice can come to hold, open and pending together. */
  function Capacity(r: Regime, sl: Slice): nat {
    var p, o := PositionCap(r, sl), PendingCap(r, sl);
    if p >= 1 && o >= 1 then p + o - 1 else 0
  }

  ghost predicate ProperSlice(sl: Slice) {
    match sl
    case Everything => true
    case OfDesk(d) => d != Unassigned
    case OfSymbol(s) => s != ""
    case OfBoth(d, s) => d != Unassigned && s != ""
  }

  /** What the gate really guarantees. The position limit itself is not kept, because a pending
      order fills without asking; but pending orders stay within their limit, and everything
      open or pending stays below the sum of the two limits, save what arrived on its own;
      without room for both, nothing enters. */
  ghost predicate Within(r: Regime, book: seq<Op>, sl: Slice, arrived: nat) {
    var o, pending := PendingCap(r, sl), Count(book, sl, true);
    pending <= (if o >= 0 then o else 0) + arrived && Count(book, sl, false) + pending <= Capacity(r, sl) + arrived
  }

  /** What an admitted entry says of the book. */
  lemma AdmittedReads(r: Regime, s: Gate, op: Op, drawdown: real, gross: real)
    requires Enabled(r, s, Enter(op, drawdown, gross))
    ensures Count(s.book, Everything, false) < Truncate(r.global.positions)
    ensures Count(s.book, Everything, true) < Truncate(r.global.pending)
    ensures Count(s.book, OfSymbol(op.symbol), false) < Truncate(r.global.perSymbol)
    ensures Count(s.book, OfDesk(op.desk), false) < Truncate(DeskRegime(r, op.desk).positions)
    ensures Count(s.book, OfDesk(op.desk), true) < Truncate(DeskRegime(r, op.desk).pending)
    ensures gross < r.global.gross && drawdown <= r.global.drawdown && !s.Stopped()
  {
    var u, d := UsageOf(s.book, drawdown, gross), DeskRegime(r, op.desk);
    assert !Blocks(r.global, d, s.Stopped(), u, op.desk, op.symbol, KillSwitchTripped);
    assert !Blocks(r.global, d, s.Stopped(), u, op.desk, op.symbol, DrawdownBreached);
    assert !Blocks(r.global, d, s.Stopped(), u, op.desk, op.symbol, GlobalGrossLimit);
    assert !Blocks(r.global, d, s.Stopped(), u, op.desk, op.symbol, GlobalPositionsLimit);
    assert !Blocks(r.global, d, s.Stopped(), u, op.desk, op.symbol, SymbolPositionsLimit);
    assert !Blocks(r.global, d, s.Stopped(), u, op.desk, op.symbol, GlobalPendingLimit);
    assert !Blocks(r.global, d, s.Stopped(), u, op.desk, op.symbol, DeskPositionsLimit);
    assert !Blocks(r.global, d, s.Stopped(), u, op.desk, op.symbol, DeskPendingLimit);
    SymbolUsage(s.book, drawdown, gross, op.symbol);
  }

  /** And conversely. */
  lemma ReadingAdmits(r: Regime, s: Gate, op: Op, drawdown: real, gross: real)
    requires ProperOp(op) && gross >= 0.0
    requires Count(s.book, Everything, false) < Truncate(r.global.positions)
    requires Count(s.book, Everything, true) < Truncate(r.global.pending)
    requires Count(s.book, OfSymbol(op.symbol), false) < Truncate(r.global.perSymbol)
    requires Count(s.book, OfDesk(op.desk), false) < Truncate(DeskRegime(r, op.desk).positions)
    requires Count(s.book, OfDesk(op.desk), true) < Truncate(DeskRegime(r, op.desk).pending)
    requires gross < r.global.gross && drawdown <= r.global.drawdown && !s.Stopped()
    ensures Enabled(r, s, Enter(op, drawdown, gross))
  {
    SymbolUsage(s.book, drawdown, gross, op.symbol);
  }

  /** The gate lets an operation in exactly if the switch is not tripped, drawdown and gross
      exposure are within bounds, and the account, the symbol and the desk have room. */
  lemma GateOpensIff(r: Regime, s: Gate, op: Op, drawdown: real, gross: real)
    requires ProperOp(op) && gross >= 0.0
    ensures Enabled(r, s, Enter(op, drawdown, gross)) <==>
      && !(s.enabled && s.tripped) && drawdown <= r.global.drawdown && gross < r.global.gross
      && Count(s.book, Everything, false) < Truncate(r.global.positions)
      && Count(s.book, Everything, true) < Truncate(r.global.pending)
      && Count(s.book, OfSymbol(op.symbol), false) < Truncate(r.global.perSymbol)
      && Count(s.book, OfDesk(op.desk), false) < Truncate((if op.desk == Smc then r.smc else r.fast).positions)
      && Count(s.book, OfDesk(op.desk), true) < Truncate((if op.desk == Smc then r.smc else r.fast).pending)
  {
    if Enabled(r, s, Enter(op, drawdown, gross)) {
      AdmittedReads(r, s, op, drawdown, gross);
    } else if
      && !s.Stopped() && drawdown <= r.global.drawdown && gross < r.global.gross
      && Count(s.book, Everything, false) < Truncate(r.global.positions)
      && Count(s.book, Everything, true) < Truncate(r.global.pending)
      && Count(s.book, OfSymbol(op.symbol), false) < Truncate(r.global.perSymbol)
      && Count(s.book, OfDesk(op.desk), false) < Truncate(DeskRegime(r, op.desk).positions)
      && Count(s.book, OfDesk(op.desk), true) < Truncate(DeskRegime(r, op.desk).pending)
    {
      ReadingAdmits(r, s, op, drawdown, gross);
    }
  }

  /** The gate of the kernel is the gate of the runs: each desk is judged by its own limits. */
  lemma KernelGateIsEntryStep(s: Settings, g: Gate, op: Op, drawdown: real, gross: real)
    requires ProperOp(op) && gross >= 0.0
    ensures Admitted(GlobalLimits(s), DeskLimitsOf(s, op.desk), g.enabled && g.tripped,
                     UsageOf(g.book, drawdown, gross), op.desk, op.symbol)
      <==> Enabled(RegimeOf(s), g, Enter(op, drawdown, gross))
  {
  }

  /** So is what it decides on usage refreshed from an account that reports the book. */
  lemma RefreshedGateIsEntryStep(s: Settings, g: Gate, op: Op, u: Usage, a: Account, rows: seq<Row>)
    requires ProperOp(op) && IsUsage(u, a, rows) && Reports(a, rows, g.book, op.desk, op.symbol)
    ensures u.gross >= 0.0
    ensures Admitted(GlobalLimits(s), DeskLimitsOf(s, op.desk), g.enabled && g.tripped, u, op.desk, op.symbol)
      <==> Enabled(RegimeOf(s), g, Enter(op, a.drawdown, u.gross))
  {
    GrossNonNegative(a.positions);
    var tripped, global, own := g.enabled && g.tripped, GlobalLimits(s), DeskLimitsOf(s, op.desk);
    var v := UsageOf(g.book, a.drawdown, u.gross);
    forall r: Reason
      ensures Blocks(global, own, tripped, u, op.desk, op.symbol, r) <==> Blocks(global, own, tripped, v, op.desk, op.symbol, r)
    {
      GateReadsTheBook(g.book, u, a, rows, global, own, tripped, op.desk, op.symbol, r);
    }
    KernelGateIsEntryStep(s, g, op, a.drawdown, u.gross);
  }

  /** A refresh and then a question, as the runtime asks it: the answer says whether the entry is
      a possible step of a run. */
  method AskAfterRefresh(k: RiskKernel, a: Account, rows: seq<Row>, desk: string, op: Op, ghost book: seq<Op>)
    returns (allowed: bool)
    requires ProperOp(op) && OwnerOf(desk) == op.desk && Reports(a, rows, book, op.desk, op.symbol)
    modifies k`usage
    ensures k.usage.gross >= 0.0
    ensures allowed <==>
      Enabled(RegimeOf(k.settings), Gate(book, k.tripped, k.killSwitchEnabled), Enter(op, a.drawdown, k.usage.gross))
  {
    k.UpdateUsage(a, rows);
    var reasons;
    allowed, reasons := k.EvaluateEntry(desk, op.symbol);
    RefreshedGateIsEntryStep(k.settings, Gate(book, k.tripped, k.killSwitchEnabled), op, k.usage, a, rows);
  }

  lemma EntryHasRoom(r: Regime, s: Gate, op: Op, drawdown: real, gross: real, sl: Slice)
    requires Enabled(r, s, Enter(op, drawdown, gross)) && ProperSlice(sl) && Matches(op, sl)
    ensures Count(s.book, sl, false) < PositionCap(r, sl) && Count(s.book, sl, true) < PendingCap(r, sl)
  {
    AdmittedReads(r, s, op, drawdown, gross);
    SliceWithin(s.book, sl, Everything, false);
    SliceWithin(s.book, sl, Everything, true);
    if sl.OfBoth? {
      SliceWithin(s.book, sl, OfDesk(sl.desk), false);
      SliceWithin(s.book, sl, OfDesk(sl.desk), true);
      SliceWithin(s.book, sl, OfSymbol(sl.symbol), false);
    }
  }

  /** What a step adds to the operations of a slice that are pending, or that are not. */
  function Change(book: seq<Op>, st: Step, sl: Slice, pending: bool): int {
    match st
    case Enter(op, _, _) => Hit(op, sl, pending)
    case Arrive(op) => Hit(op, sl, pending)
    case Fill(i) => if i < |book| then Hit(book[i].(pending := false), sl, pending) - Hit(book[i], sl, pending) else 0
    case Leave(i) => if i < |book| then -(Hit(book[i], sl, pending) as int) else 0
    case _ => 0
  }

  lemma StepChanges(s: Gate, st: Step, sl: Slice, pending: bool)
    ensures Count(After(s, st).book, sl, pending) == Count(s.book, sl, pending) + Change(s.book, st, sl, pending)
  {
    match st
    case Enter(op, _, _) => assert (s.book + [op])[..|s.book|] == s.book;
    case Arrive(op) => assert (s.book + [op])[..|s.book|] == s.book;
    case Fill(i) => if i < |s.book| { CountUpdate(s.book, i, s.book[i].(pending := false), sl, pending); }
    case Leave(i) => if i < |s.book| { CountRemove(s.book, i, sl, pending); }
    case _ =>
  }

  /** Only entries and arrivals make a slice grow. */
  lemma StepGrows(r: Regime, s: Gate, st: Step, sl: Slice)
    requires Enabled(r, s, st)
    ensures var more, after := if (st.Enter? || st.Arrive?) && Matches(st.op, sl) then 1 else 0, After(s, st).book;
      && Count(after, sl, true) <= Count(s.book, sl, true) + more
      && Count(after, sl, false) + Count(after, sl, true) <= Count(s.book, sl, false) + Count(s.book, sl, true) + more
  {
    StepChanges(s, st, sl, false);
    StepChanges(s, st, sl, true);
  }

  lemma StepStaysWithin(r: Regime, s: Gate, st: Step, sl: Slice, arrived: nat)
    requires Enabled(r, s, st) && ProperSlice(sl) && Within(r, s.book, sl, arrived)
    ensures Within(r, After(s, st).book, sl, arrived + (if st.Arrive? && Matches(st.op, sl) then 1 else 0))
  {
    StepGrows(r, s, st, sl);
    if st.Enter? && Matches(st.op, sl) { EntryHasRoom(r, s, st.op, st.drawdown, st.gross, sl); }
  }

  /** Every run keeps the bounds, account-wide, per desk and per symbol. */
  lemma {:induction false} RunStaysWithin(r: Regime, s: Gate, steps: seq<Step>, sl: Slice, arrived: nat)
    requires EnabledRun(r, s, steps) && ProperSlice(sl) && Within(r, s.book, sl, arrived)
    ensures Within(r, Run(s, steps).book, sl, arrived + Arrivals(steps, sl))
    decreases |steps|
  {
    if steps != [] {
      var more := if steps[0].Arrive? && Matches(steps[0].op, sl) then 1 else 0;
      StepStaysWithin(r, s, steps[0], sl, arrived);
      RunStaysWithin(r, After(s, steps[0]), steps[1..], sl, arrived + more);
    }
  }

  /** For the limits any settings produce, from an empty account. */
  lemma AccountStaysWithin(settings: Settings, enabled: bool, steps: seq<Step>, sl: Slice)
    requires EnabledRun(RegimeOf(settings), Gate([], false, enabled), steps) && ProperSlice(sl)
    ensures Within(RegimeOf(settings), Run(Gate([], false, enabled), steps).book, sl, Arrivals(steps, sl))
  {
    RunStaysWithin(RegimeOf(settings), Gate([], false, enabled), steps, sl, 0);
  }

  /** While an enabled switch is tripped and not reset, the book grows by arrivals only. */
  lemma {:induction false} TrippedBookNeverGrows(r: Regime, s: Gate, steps: seq<Step>)
    requires s.Stopped() && EnabledRun(r, s, steps) && Reset !in steps
    ensures |Run(s, steps).book| <= |s.book| + Arrivals(steps, Everything)
    decreases |steps|
  {
    if steps != [] {
      var st := steps[0];
      if st.Enter? { AdmittedReads(r, s, st.op, st.drawdown, st.gross); }
      assert st in steps && forall x :: x in steps[1..] ==> x in steps;
      TrippedBookNeverGrows(r, After(s, st), steps[1..]);
    }
  }

  /** A switch that is not enabled stops nothing: tripped or not, the same runs are possible and
      lead to the same book. */
  lemma {:induction false} DisabledSwitchIsIdle(r: Regime, s: Gate, t: Gate, steps: seq<Step>)
    requires !s.enabled && !t.enabled && s.book == t.book
    ensures EnabledRun(r, s, steps) <==> EnabledRun(r, t, steps)
    ensures Run(s, steps).book == Run(t, steps).book
    decreases |steps|
  {
    if steps != [] { DisabledSwitchIsIdle(r, After(s, steps[0]), After(t, steps[0]), steps[1..]); }
  }
}
