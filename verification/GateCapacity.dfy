/** How much the gate's limits let a desk, the account and a symbol come to hold, exactly. */
module GateCapacity {
  import opened Wrappers
  import opened RiskLimits
  import opened RiskKernel
  import opened Ownership
  import opened EntryGate
  import Symbols

  // ---- What a run can reach ----

  /** A run in which nothing arrives on its own. */
  ghost predicate GatedRun(r: Regime, s: Gate, steps: seq<Step>)
    decreases |steps|
  {
    steps != [] ==> !steps[0].Arrive? && Enabled(r, s, steps[0]) && GatedRun(r, After(s, steps[0]), steps[1..])
  }

  const START := Gate([], false, true)

  ghost predicate Reaches(r: Regime, book: seq<Op>) {
    exists steps :: GatedRun(r, START, steps) && Run(START, steps) == START.(book := book)
  }

  lemma {:induction false} RunAppend(r: Regime, s: Gate, a: seq<Step>, st: Step)
    requires GatedRun(r, s, a) && Enabled(r, Run(s, a), st) && !st.Arrive?
    ensures GatedRun(r, s, a + [st]) && Run(s, a + [st]) == After(Run(s, a), st)
    decreases |a|
  {
    if a == [] {
      assert a + [st] == [st];
    } else {
      assert (a + [st])[1..] == a[1..] + [st];
      RunAppend(r, After(s, a[0]), a[1..], st);
    }
  }

  lemma ReachesNext(r: Regime, book: seq<Op>, st: Step, next: seq<Op>)
    requires Reaches(r, book) && Enabled(r, START.(book := book), st) && !st.Arrive?
    requires After(START.(book := book), st) == START.(book := next)
    ensures Reaches(r, next)
  {
    var steps :| GatedRun(r, START, steps) && Run(START, steps) == START.(book := book);
    RunAppend(r, START, steps, st);
    assert Run(START, steps + [st]) == START.(book := next);
  }

  function Name(i: nat): string {
    seq(i + 1, _ => 'A')
  }

  lemma NameIsProper(i: nat)
    ensures Name(i) != "" && Symbols.Upper(Name(i)) == Name(i)
  {
    Symbols.UpperAt(Name(i));
  }

  /** A book in which every operation has its own symbol. */
  ghost predicate Numbered(book: seq<Op>) {
    forall i :: 0 <= i < |book| ==> book[i].symbol == Name(i) && book[i].desk != Unassigned
  }

  lemma NextNameIsNew(book: seq<Op>)
    requires Numbered(book)
    ensures Name(|book|) !in OpSymbols(book)
  {
    forall op | op in book ensures |op.symbol| <= |book| {
      var i :| 0 <= i < |book| && book[i] == op;
      assert |op.symbol| == i + 1;
    }
  }

  /** How many positions and pending orders the two desks hold. */
  datatype Tally = Tally(fastOpen: nat, fastPending: nat, smcOpen: nat, smcPending: nat)
  {
    function Open(d: Owner): nat { if d == Fast then fastOpen else smcOpen }

    function Pending(d: Owner): nat { if d == Fast then fastPending else smcPending }

    function Set(d: Owner, open: nat, pending: nat): Tally {
      if d == Fast then Tally(open, pending, smcOpen, smcPending) else Tally(fastOpen, fastPending, open, pending)
    }

    function Entered(d: Owner, pending: bool): Tally {
      if pending then Set(d, Open(d), Pending(d) + 1) else Set(d, Open(d) + 1, Pending(d))
    }
  }

  const NOTHING := Tally(0, 0, 0, 0)

  function TallyOf(book: seq<Op>): Tally {
    Tally(Count(book, OfDesk(Fast), false), Count(book, OfDesk(Fast), true),
          Count(book, OfDesk(Smc), false), Count(book, OfDesk(Smc), true))
  }

  lemma {:induction false} DesksMakeEverything(book: seq<Op>, pending: bool)
    requires forall op :: op in book ==> op.desk != Unassigned
    ensures Count(book, Everything, pending) == Count(book, OfDesk(Fast), pending) + Count(book, OfDesk(Smc), pending)
  {
    if book != [] {
      DesksMakeEverything(book[..|book| - 1], pending);
      assert book[|book| - 1] in book;
    }
  }

  ghost predicate Attains(r: Regime, t: Tally) {
    exists book :: Reaches(r, book) && Numbered(book) && TallyOf(book) == t
  }

  /** The gate lets desk d in, on a symbol of its own, at this tally. */
  predicate HasRoom(r: Regime, t: Tally, d: Owner) {
    && d != Unassigned && Truncate(r.global.perSymbol) >= 1 && r.global.gross > 0.0
    && t.fastOpen + t.smcOpen < Truncate(r.global.positions) && t.fastPending + t.smcPending < Truncate(r.global.pending)
    && t.Open(d) < Truncate(DeskRegime(r, d).positions) && t.Pending(d) < Truncate(DeskRegime(r, d).pending)
  }

  lemma RoomEnables(r: Regime, book: seq<Op>, d: Owner, pending: bool)
    requires Numbered(book) && HasRoom(r, TallyOf(book), d)
    ensures Enabled(r, START.(book := book), Enter(Op(d, Name(|book|), pending), r.global.drawdown, 0.0))
  {
    NextNameIsNew(book);
    NameIsProper(|book|);
    DesksMakeEverything(book, false);
    DesksMakeEverything(book, true);
    UnseenSymbol(book, Name(|book|));
    ReadingAdmits(r, START.(book := book), Op(d, Name(|book|), pending), r.global.drawdown, 0.0);
  }

  lemma TallyEnter(book: seq<Op>, op: Op)
    requires op.desk != Unassigned
    ensures TallyOf(book + [op]) == TallyOf(book).Entered(op.desk, op.pending)
  {
    assert (book + [op])[..|book|] == book;
  }

  lemma ReachesEntered(r: Regime, book: seq<Op>, d: Owner, pending: bool)
    requires Reaches(r, book) && Numbered(book) && HasRoom(r, TallyOf(book), d)
    ensures var op := Op(d, Name(|book|), pending); Reaches(r, book + [op]) && Numbered(book + [op])
  {
    var op := Op(d, Name(|book|), pending);
    RoomEnables(r, book, d, pending);
    ReachesNext(r, book, Enter(op, r.global.drawdown, 0.0), book + [op]);
  }

  lemma AttainsEnter(r: Regime, t: Tally, d: Owner, pending: bool)
    requires Attains(r, t) && HasRoom(r, t, d)
    ensures Attains(r, t.Entered(d, pending))
  {
    var book: seq<Op> :| Reaches(r, book) && Numbered(book) && TallyOf(book) == t;
    ReachesEntered(r, book, d, pending);
    TallyEnter(book, Op(d, Name(|book|), pending));
  }

  lemma {:induction false} SomePending(book: seq<Op>, d: Owner) returns (i: nat)
    requires Count(book, OfDesk(d), true) > 0
    ensures i < |book| && book[i].desk == d && book[i].pending
  {
    var last := book[|book| - 1];
    if last.desk == d && last.pending {
      i := |book| - 1;
    } else {
      i := SomePending(book[..|book| - 1], d);
    }
  }

  lemma TallyFill(book: seq<Op>, i: nat)
    requires i < |book| && book[i].pending && book[i].desk != Unassigned
    ensures var d, t := book[i].desk, TallyOf(book);
      t.Pending(d) > 0 && TallyOf(book[i := book[i].(pending := false)]) == t.Set(d, t.Open(d) + 1, t.Pending(d) - 1)
  {
    var op := book[i].(pending := false);
    CountUpdate(book, i, op, OfDesk(Fast), false);
    CountUpdate(book, i, op, OfDesk(Fast), true);
    CountUpdate(book, i, op, OfDesk(Smc), false);
    CountUpdate(book, i, op, OfDesk(Smc), true);
  }

  lemma AttainsFill(r: Regime, t: Tally, d: Owner)
    requires Attains(r, t) && d != Unassigned && t.Pending(d) > 0
    ensures Attains(r, t.Set(d, t.Open(d) + 1, t.Pending(d) - 1))
  {
    var book: seq<Op> :| Reaches(r, book) && Numbered(book) && TallyOf(book) == t;
    var i := SomePending(book, d);
    var next := book[i := book[i].(pending := false)];
    ReachesNext(r, book, Fill(i), next);
    TallyFill(book, i);
    assert Numbered(next);
  }

  lemma {:induction false} AttainsFills(r: Regime, t: Tally, d: Owner, n: nat)
    requires Attains(r, t) && d != Unassigned && n <= t.Pending(d)
    ensures Attains(r, t.Set(d, t.Open(d) + n, t.Pending(d) - n))
  {
    if n > 0 {
      AttainsFills(r, t, d, n - 1);
      AttainsFill(r, t.Set(d, t.Open(d) + n - 1, t.Pending(d) - n + 1), d);
    }
  }

  lemma NothingIsAttained(r: Regime)
    ensures Attains(r, NOTHING)
  {
    assert GatedRun(r, START, []) && Run(START, []) == START.(book := []);
    assert Reaches(r, []) && Numbered([]) && TallyOf([]) == NOTHING;
  }

  /** The limits let desk d enter at least once. */
  predicate CanEnter(r: Regime, d: Owner) {
    HasRoom(r, NOTHING, d)
  }

  /** One desk alone: first market entries, then pending ones. */
  lemma {:induction false} SoleEntries(r: Regime, d: Owner, k: nat, j: nat)
    requires CanEnter(r, d) && k < PositionCap(r, OfDesk(d)) && j <= PendingCap(r, OfDesk(d))
    ensures Attains(r, NOTHING.Set(d, k, j))
    decreases k + j
  {
    if j > 0 {
      SoleEntries(r, d, k, j - 1);
      AttainsEnter(r, NOTHING.Set(d, k, j - 1), d, true);
    } else if k > 0 {
      SoleEntries(r, d, k - 1, 0);
      AttainsEnter(r, NOTHING.Set(d, k - 1, 0), d, false);
    } else {
      NothingIsAttained(r);
    }
  }

  /** And then fills, all but n of them. */
  lemma SoleFilled(r: Regime, d: Owner, n: nat)
    requires CanEnter(r, d) && n <= PendingCap(r, OfDesk(d))
    ensures n <= Capacity(r, OfDesk(d))
    ensures Attains(r, NOTHING.Set(d, Capacity(r, OfDesk(d)) - n, n))
  {
    var k, j := PositionCap(r, OfDesk(d)) - 1, PendingCap(r, OfDesk(d));
    SoleEntries(r, d, k, j);
    AttainsFills(r, NOTHING.Set(d, k, j), d, j - n);
  }

  // ---- Capacities ----

  /** How many orders a desk may have pending, if it can enter at all. */
  function OpenTo(r: Regime, d: Owner): nat {
    if CanEnter(r, d) then PendingCap(r, OfDesk(d)) else 0
  }

  /** What a desk can come to hold. */
  function DeskCapacity(r: Regime, d: Owner): nat {
    if CanEnter(r, d) then Capacity(r, OfDesk(d)) else 0
  }

  function BothOpenTo(r: Regime): nat {
    OpenTo(r, Fast) + OpenTo(r, Smc)
  }

  /** What lies open before the last entry, and with it all the orders that can be pending then. */
  function AccountRoom(r: Regime): nat {
    if BothOpenTo(r) == 0 then 0
    else Truncate(r.global.positions) + Least(Truncate(r.global.pending), BothOpenTo(r)) - 1
  }

  /** What the account can come to hold. */
  function AccountCapacity(r: Regime): nat {
    Least(AccountRoom(r), DeskCapacity(r, Fast) + DeskCapacity(r, Smc))
  }

  lemma TruncateInt(n: int)
    ensures Truncate(n as real) == n
  {
    assert (n as real).Floor == n && (-(n as real)).Floor == -n;
  }

  /** The same limits with the positions of one symbol in place of the account's. */
  function ForOneSymbol(r: Regime): Regime {
    var most := Least(Truncate(r.global.positions), Truncate(r.global.perSymbol)) as real;
    r.(global := r.global.(positions := most, perSymbol := 1.0))
  }

  lemma OneSymbolCaps(r: Regime)
    ensures var one := ForOneSymbol(r);
      && Truncate(one.global.positions) == Least(Truncate(r.global.positions), Truncate(r.global.perSymbol))
      && Truncate(one.global.perSymbol) == 1
  {
    TruncateInt(Least(Truncate(r.global.positions), Truncate(r.global.perSymbol)));
    TruncateInt(1);
  }

  // ---- Nothing holds more ----

  /** The account, or one symbol of it, with the limits that govern it. */
  function Whole(one: Option<string>): Slice {
    if one.Some? then OfSymbol(one.value) else Everything
  }

  function Part(one: Option<string>, d: Owner): Slice {
    if one.Some? then OfBoth(d, one.value) else OfDesk(d)
  }

  function For(r: Regime, one: Option<string>): Regime {
    if one.Some? then ForOneSymbol(r) else r
  }

  lemma CapsAgree(r: Regime, one: Option<string>, d: Owner)
    ensures var f := For(r, one);
      && Truncate(f.global.positions) == PositionCap(r, Whole(one)) && Truncate(f.global.pending) == PendingCap(r, Whole(one))
      && PositionCap(f, OfDesk(d)) == PositionCap(r, Part(one, d)) && PendingCap(f, OfDesk(d)) == PendingCap(r, Part(one, d))
  {
    OneSymbolCaps(r);
  }

  lemma EntryNeedsRoom(r: Regime, s: Gate, op: Op, drawdown: real, gross: real, one: Option<string>)
    requires Enabled(r, s, Enter(op, drawdown, gross))
    ensures CanEnter(For(r, one), op.desk)
  {
    AdmittedReads(r, s, op, drawdown, gross);
    OneSymbolCaps(r);
  }

  ghost predicate AllOwned(book: seq<Op>) {
    forall op :: op in book ==> op.desk != Unassigned
  }

  lemma {:induction false} DesksMakeSymbol(book: seq<Op>, s: string, pending: bool)
    requires AllOwned(book)
    ensures Count(book, OfSymbol(s), pending) == Count(book, OfBoth(Fast, s), pending) + Count(book, OfBoth(Smc, s), pending)
  {
    if book != [] {
      DesksMakeSymbol(book[..|book| - 1], s, pending);
      assert book[|book| - 1] in book;
    }
  }

  lemma PartsMakeWhole(book: seq<Op>, one: Option<string>, pending: bool)
    requires AllOwned(book)
    ensures Count(book, Whole(one), pending) == Count(book, Part(one, Fast), pending) + Count(book, Part(one, Smc), pending)
  {
    if one.Some? { DesksMakeSymbol(book, one.value, pending); } else { DesksMakeEverything(book, pending); }
  }

  ghost predicate PartFits(r: Regime, one: Option<string>, book: seq<Op>, d: Owner) {
    var f, part := For(r, one), Part(one, d);
    && Count(book, part, true) <= OpenTo(f, d)
    && Count(book, part, false) + Count(book, part, true) <= DeskCapacity(f, d)
  }

  ghost predicate WholeFits(r: Regime, one: Option<string>, book: seq<Op>) {
    Count(book, Whole(one), false) + Count(book, Whole(one), true) <= AccountRoom(For(r, one))
  }

  lemma PartStaysFit(r: Regime, s: Gate, st: Step, one: Option<string>, d: Owner)
    requires Enabled(r, s, st) && !st.Arrive? && d != Unassigned && one != Some("") && PartFits(r, one, s.book, d)
    ensures PartFits(r, one, After(s, st).book, d)
    ensures st.Enter? && Matches(st.op, Part(one, d)) ==> Count(s.book, Part(one, d), true) < OpenTo(For(r, one), d)
  {
    var part := Part(one, d);
    StepGrows(r, s, st, part);
    if st.Enter? && Matches(st.op, part) {
      EntryNeedsRoom(r, s, st.op, st.drawdown, st.gross, one);
      EntryHasRoom(r, s, st.op, st.drawdown, st.gross, part);
      CapsAgree(r, one, d);
    }
  }

  lemma WholeStaysFit(r: Regime, s: Gate, st: Step, one: Option<string>)
    requires Enabled(r, s, st) && !st.Arrive? && one != Some("") && AllOwned(s.book)
    requires PartFits(r, one, s.book, Fast) && PartFits(r, one, s.book, Smc) && WholeFits(r, one, s.book)
    ensures WholeFits(r, one, After(s, st).book)
  {
    StepGrows(r, s, st, Whole(one));
    if st.Enter? && Matches(st.op, Whole(one)) {
      PartStaysFit(r, s, st, one, st.op.desk);
      EntryHasRoom(r, s, st.op, st.drawdown, st.gross, Whole(one));
      CapsAgree(r, one, Fast);
      PartsMakeWhole(s.book, one, true);
    }
  }

  /** In every gated run each desk stays within its capacity and the account within its room. */
  lemma {:induction false} RunStaysFit(r: Regime, s: Gate, steps: seq<Step>, one: Option<string>)
    requires GatedRun(r, s, steps) && one != Some("") && AllOwned(s.book)
    requires PartFits(r, one, s.book, Fast) && PartFits(r, one, s.book, Smc) && WholeFits(r, one, s.book)
    ensures var book := Run(s, steps).book;
      AllOwned(book) && PartFits(r, one, book, Fast) && PartFits(r, one, book, Smc) && WholeFits(r, one, book)
    decreases |steps|
  {
    if steps != [] {
      PartStaysFit(r, s, steps[0], one, Fast);
      PartStaysFit(r, s, steps[0], one, Smc);
      WholeStaysFit(r, s, steps[0], one);
      RunStaysFit(r, After(s, steps[0]), steps[1..], one);
    }
  }

  lemma StaysBelow(r: Regime, enabled: bool, steps: seq<Step>, one: Option<string>)
    requires GatedRun(r, Gate([], false, enabled), steps) && one != Some("")
    ensures var book, f := Run(Gate([], false, enabled), steps).book, For(r, one);
      && Count(book, Whole(one), false) <= AccountCapacity(f)
      && (forall d :: d != Unassigned ==> Count(book, Part(one, d), false) <= DeskCapacity(f, d))
  {
    RunStaysFit(r, Gate([], false, enabled), steps, one);
    PartsMakeWhole(Run(Gate([], false, enabled), steps).book, one, false);
  }

  // ---- Somebody holds as much ----

  /** The bound is attained: some run brings the desk to its capacity in open positions. */
  lemma DeskBoundIsAttained(r: Regime, d: Owner)
    requires d != Unassigned
    ensures Attains(r, NOTHING.Set(d, DeskCapacity(r, d), 0))
  {
    if CanEnter(r, d) { SoleFilled(r, d, 0); } else { NothingIsAttained(r); }
  }

  function Other(d: Owner): Owner { if d == Fast then Smc else Fast }

  /** Desk d is full, j of its orders still pending; the other desk joins with x market entries. */
  lemma {:induction false} OtherJoins(r: Regime, d: Owner, j: nat, x: nat)
    requires d != Unassigned && CanEnter(r, d) && CanEnter(r, Other(d)) && j <= OpenTo(r, d)
    requires x < PositionCap(r, OfDesk(Other(d)))
    requires x > 0 ==> j < Truncate(r.global.pending) && DeskCapacity(r, d) - j + x <= Truncate(r.global.positions)
    ensures j <= DeskCapacity(r, d)
    ensures Attains(r, NOTHING.Set(d, DeskCapacity(r, d) - j, j).Set(Other(d), x, 0))
    decreases x
  {
    var full := NOTHING.Set(d, DeskCapacity(r, d) - j, j);
    if x == 0 {
      SoleFilled(r, d, j);
      assert full.Set(Other(d), 0, 0) == full;
    } else {
      OtherJoins(r, d, j, x - 1);
      AttainsEnter(r, full.Set(Other(d), x - 1, 0), Other(d), false);
      assert full.Set(Other(d), x - 1, 0).Entered(Other(d), false) == full.Set(Other(d), x, 0);
    }
  }

  /** Then with y pending orders. */
  lemma {:induction false} OtherWaits(r: Regime, d: Owner, j: nat, x: nat, y: nat)
    requires d != Unassigned && CanEnter(r, d) && CanEnter(r, Other(d)) && j <= OpenTo(r, d)
    requires x < PositionCap(r, OfDesk(Other(d))) && y <= OpenTo(r, Other(d))
    requires y > 0 ==> j + y <= Truncate(r.global.pending) && DeskCapacity(r, d) - j + x < Truncate(r.global.positions)
    requires x > 0 ==> y > 0
    ensures j <= DeskCapacity(r, d)
    ensures Attains(r, NOTHING.Set(d, DeskCapacity(r, d) - j, j).Set(Other(d), x, y))
    decreases y
  {
    if y == 0 {
      OtherJoins(r, d, j, x);
    } else {
      if y == 1 { OtherJoins(r, d, j, x); } else { OtherWaits(r, d, j, x, y - 1); }
      var t := NOTHING.Set(d, DeskCapacity(r, d) - j, j).Set(Other(d), x, y - 1);
      AttainsEnter(r, t, Other(d), true);
      assert t.Entered(Other(d), true) == NOTHING.Set(d, DeskCapacity(r, d) - j, j).Set(Other(d), x, y);
    }
  }

  ghost predicate AttainsOpen(r: Regime, n: nat) {
    exists t :: Attains(r, t) && t.fastOpen + t.smcOpen == n
  }

  lemma EverythingFills(r: Regime, t: Tally)
    requires Attains(r, t)
    ensures AttainsOpen(r, t.fastOpen + t.fastPending + t.smcOpen + t.smcPending)
  {
    AttainsFills(r, t, Fast, t.fastPending);
    var u := t.Set(Fast, t.fastOpen + t.fastPending, 0);
    AttainsFills(r, u, Smc, u.smcPending);
    assert Attains(r, u.Set(Smc, u.smcOpen + u.smcPending, 0));
  }

  lemma BothAttain(r: Regime)
    requires CanEnter(r, Fast) && CanEnter(r, Smc)
    ensures AttainsOpen(r, AccountCapacity(r))
  {
    var p, m, o := Truncate(r.global.positions), DeskCapacity(r, Fast), OpenTo(r, Smc);
    var n := AccountCapacity(r) - m;
    var y := Least(n, o);
    var x := n - y;
    var j := if m + x - p + 1 > 0 && y > 0 then m + x - p + 1 else 0;
    OtherWaits(r, Fast, j, x, y);
    EverythingFills(r, NOTHING.Set(Fast, m - j, j).Set(Smc, x, y));
  }

  lemma AccountIsAttained(r: Regime)
    ensures AttainsOpen(r, AccountCapacity(r))
  {
    if CanEnter(r, Fast) && CanEnter(r, Smc) {
      BothAttain(r);
    } else {
      var d := if CanEnter(r, Fast) then Fast else Smc;
      DeskBoundIsAttained(r, d);
      assert AccountCapacity(r) == DeskCapacity(r, d);
      var t := NOTHING.Set(d, DeskCapacity(r, d), 0);
      assert t.fastOpen + t.smcOpen == DeskCapacity(r, d);
    }
  }

  // ---- When a limit is kept ----

  /** No run in which nothing arrives on its own, with the switch enabled or not, takes the open
      positions of a slice past n. */
  ghost predicate AlwaysWithin(r: Regime, sl: Slice, n: int) {
    forall enabled, steps :: GatedRun(r, Gate([], false, enabled), steps) ==>
      Count(Run(Gate([], false, enabled), steps).book, sl, false) <= n
  }

  lemma ReachedIsWithin(r: Regime, sl: Slice, n: int, t: Tally)
    requires AlwaysWithin(r, sl, n) && Attains(r, t)
    ensures sl == OfDesk(Fast) || sl == OfDesk(Smc) ==> t.Open(sl.desk) <= n
    ensures sl == Everything ==> t.fastOpen + t.smcOpen <= n
  {
    var book: seq<Op> :| Reaches(r, book) && Numbered(book) && TallyOf(book) == t;
    var steps :| GatedRun(r, START, steps) && Run(START, steps) == START.(book := book);
    assert Count(Run(Gate([], false, true), steps).book, sl, false) <= n;
    DesksMakeEverything(book, false);
  }

  /** A desk's open positions stay within n in every run exactly if its capacity is within n. */
  lemma DeskLimitKeptIff(r: Regime, d: Owner, n: int)
    requires d != Unassigned
    ensures AlwaysWithin(r, OfDesk(d), n) <==> DeskCapacity(r, d) <= n
  {
    if DeskCapacity(r, d) <= n {
      forall enabled, steps | GatedRun(r, Gate([], false, enabled), steps)
        ensures Count(Run(Gate([], false, enabled), steps).book, OfDesk(d), false) <= n
      {
        StaysBelow(r, enabled, steps, None);
        assert Part(None, d) == OfDesk(d);
      }
    }
    DeskBoundIsAttained(r, d);
    if AlwaysWithin(r, OfDesk(d), n) {
      ReachedIsWithin(r, OfDesk(d), n, NOTHING.Set(d, DeskCapacity(r, d), 0));
    }
  }

  /** The desk's own limit, under an account limit that leaves it to the desk, is kept exactly if
      one pending order is all the desk may have. */
  lemma DeskOwnLimitKeptIff(r: Regime, d: Owner)
    requires CanEnter(r, d) && Truncate(DeskRegime(r, d).positions) <= Truncate(r.global.positions)
    ensures AlwaysWithin(r, OfDesk(d), Truncate(DeskRegime(r, d).positions)) <==> PendingCap(r, OfDesk(d)) <= 1
  {
    DeskLimitKeptIff(r, d, Truncate(DeskRegime(r, d).positions));
  }

  /** The account's open positions stay within n in every run exactly if its capacity is within n. */
  lemma AccountLimitKeptIff(r: Regime, n: int)
    ensures AlwaysWithin(r, Everything, n) <==> AccountCapacity(r) <= n
  {
    if AccountCapacity(r) <= n {
      forall enabled, steps | GatedRun(r, Gate([], false, enabled), steps)
        ensures Count(Run(Gate([], false, enabled), steps).book, Everything, false) <= n
      {
        StaysBelow(r, enabled, steps, None);
      }
    }
    AccountIsAttained(r);
    if AlwaysWithin(r, Everything, n) {
      var t :| Attains(r, t) && t.fastOpen + t.smcOpen == AccountCapacity(r);
      ReachedIsWithin(r, Everything, n, t);
    }
  }

  /** Its own limit is kept exactly if at most one order may be pending, or the two desks together
      cannot hold more than the limit. */
  lemma AccountOwnLimitKeptIff(r: Regime)
    ensures var p := Truncate(r.global.positions);
      AlwaysWithin(r, Everything, p) <==>
        p >= 0 && (Truncate(r.global.pending) <= 1 || DeskCapacity(r, Fast) + DeskCapacity(r, Smc) <= p)
  {
    AccountLimitKeptIff(r, Truncate(r.global.positions));
  }

  // ---- A symbol's limit ----

  function Renamed(book: seq<Op>, symbol: string): (b: seq<Op>)
    ensures |b| == |book| && forall i :: 0 <= i < |b| ==> b[i] == book[i].(symbol := symbol)
  {
    seq(|book|, i requires 0 <= i < |book| => book[i].(symbol := symbol))
  }

  lemma {:induction false} RenamedCounts(book: seq<Op>, symbol: string, pending: bool)
    ensures var b := Renamed(book, symbol);
      && Count(b, Everything, pending) == Count(b, OfSymbol(symbol), pending) == Count(book, Everything, pending)
      && (forall d :: Count(b, OfDesk(d), pending) == Count(book, OfDesk(d), pending))
  {
    if book != [] {
      var init := book[..|book| - 1];
      RenamedCounts(init, symbol, pending);
      assert Renamed(book, symbol)[..|book| - 1] == Renamed(init, symbol);
    }
  }

  function RenamedStep(st: Step, symbol: string): Step {
    if st.Enter? then st.(op := st.op.(symbol := symbol)) else st
  }

  function RenamedSteps(steps: seq<Step>, symbol: string): seq<Step> {
    if steps == [] then [] else [RenamedStep(steps[0], symbol)] + RenamedSteps(steps[1..], symbol)
  }

  function RenamedGate(g: Gate, symbol: string): Gate {
    g.(book := Renamed(g.book, symbol))
  }

  /** What is possible with any symbols under a symbol's limit is possible with that symbol alone. */
  lemma RenamedEnabled(r: Regime, g: Gate, st: Step, symbol: string)
    requires symbol != "" && Symbols.Upper(symbol) == symbol
    requires Enabled(ForOneSymbol(r), g, st) && !st.Arrive?
    ensures Enabled(r, RenamedGate(g, symbol), RenamedStep(st, symbol))
    ensures After(RenamedGate(g, symbol), RenamedStep(st, symbol)) == RenamedGate(After(g, st), symbol)
  {
    if st.Enter? { RenamedEntry(r, g, st.op, st.drawdown, st.gross, symbol); }
    RenamedAfter(g, st, symbol);
  }

  lemma RenamedEntry(r: Regime, g: Gate, op: Op, drawdown: real, gross: real, symbol: string)
    requires symbol != "" && Symbols.Upper(symbol) == symbol
    requires Enabled(ForOneSymbol(r), g, Enter(op, drawdown, gross))
    ensures Enabled(r, RenamedGate(g, symbol), Enter(op.(symbol := symbol), drawdown, gross))
  {
    OneSymbolCaps(r);
    AdmittedReads(ForOneSymbol(r), g, op, drawdown, gross);
    RenamedCounts(g.book, symbol, false);
    RenamedCounts(g.book, symbol, true);
    ReadingAdmits(r, RenamedGate(g, symbol), op.(symbol := symbol), drawdown, gross);
  }

  lemma RenamedAfter(g: Gate, st: Step, symbol: string)
    requires !st.Arrive?
    ensures After(RenamedGate(g, symbol), RenamedStep(st, symbol)) == RenamedGate(After(g, st), symbol)
  {
    assert After(RenamedGate(g, symbol), RenamedStep(st, symbol)).book == Renamed(After(g, st).book, symbol);
  }

  lemma {:induction false} RenamedRun(r: Regime, g: Gate, steps: seq<Step>, symbol: string)
    requires symbol != "" && Symbols.Upper(symbol) == symbol
    requires GatedRun(ForOneSymbol(r), g, steps)
    ensures GatedRun(r, RenamedGate(g, symbol), RenamedSteps(steps, symbol))
    ensures Run(RenamedGate(g, symbol), RenamedSteps(steps, symbol)) == RenamedGate(Run(g, steps), symbol)
    decreases |steps|
  {
    if steps != [] {
      RenamedEnabled(r, g, steps[0], symbol);
      RenamedRun(r, After(g, steps[0]), steps[1..], symbol);
      assert RenamedSteps(steps, symbol)[1..] == RenamedSteps(steps[1..], symbol);
    }
  }

  /** The open positions in one symbol stay within n in every run exactly as an account's would
      whose limit is the lesser of the two. */
  lemma SymbolLimitKeptIff(r: Regime, s: string, n: int)
    requires s != "" && Symbols.Upper(s) == s
    ensures AlwaysWithin(r, OfSymbol(s), n) <==> AccountCapacity(ForOneSymbol(r)) <= n
  {
    if AccountCapacity(ForOneSymbol(r)) <= n {
      forall enabled, steps | GatedRun(r, Gate([], false, enabled), steps)
        ensures Count(Run(Gate([], false, enabled), steps).book, OfSymbol(s), false) <= n
      {
        StaysBelow(r, enabled, steps, Some(s));
      }
    }
    AccountLimitKeptIff(ForOneSymbol(r), n);
    if AlwaysWithin(r, OfSymbol(s), n) { SymbolKeepsAccount(r, s, n); }
  }

  lemma SymbolKeepsAccount(r: Regime, s: string, n: int)
    requires s != "" && Symbols.Upper(s) == s && AlwaysWithin(r, OfSymbol(s), n)
    ensures AlwaysWithin(ForOneSymbol(r), Everything, n)
  {
    forall enabled, steps | GatedRun(ForOneSymbol(r), Gate([], false, enabled), steps)
      ensures Count(Run(Gate([], false, enabled), steps).book, Everything, false) <= n
    {
      var g := Gate([], false, enabled);
      assert RenamedGate(g, s) == g;
      RenamedRun(r, g, steps, s);
      RenamedCounts(Run(g, steps).book, s, false);
    }
  }

  const NO_OVERRIDES := Overrides(None, None, None, None, None, None)
  const DEFAULTS := Settings(2, 2, 2, 1.2, 0.8, NO_OVERRIDES)

  lemma DefaultShares()
    ensures FastShare(DEFAULTS) == 0.6 && SmcShare(DEFAULTS) == 0.4
  {
    assert Score(1.2, 2) == 1.2 && Score(0.8, 2) == 0.8;
    assert 1.2 / (1.2 + 0.8) == 0.6;
    assert (0.6 * 1000000.0).Floor == 600000;
    SharesSumToOne(DEFAULTS);
  }

  lemma DefaultLimits()
    ensures var r := RegimeOf(DEFAULTS);
      && r.global.positions == 5.0 && r.global.pending == 5.0 && r.global.perSymbol == 2.0 && r.global.gross == 5.0
      && r.fast.positions == 3.0 && r.fast.pending == 3.0 && r.smc.positions == 2.0 && r.smc.pending == 2.0
  {
    DefaultShares();
    assert Slots(5.0, 0.6) == 3 && Slots(5.0, 0.4) == 2;
  }

  lemma DefaultCapacities(r: Regime)
    requires r.global.positions == 5.0 && r.global.pending == 5.0 && r.global.perSymbol == 2.0 && r.global.gross == 5.0
    requires r.fast.positions == 3.0 && r.fast.pending == 3.0 && r.smc.positions == 2.0 && r.smc.pending == 2.0
    ensures DeskCapacity(r, Fast) == 5 && DeskCapacity(r, Smc) == 3 && AccountCapacity(r) == 8
  {
  }

  /** Out of the box no limit is kept: the fast desk is limited to three positions and can come
      to hold five, smc to two and three, and the account to five and eight. */
  lemma DefaultsOvershoot()
    ensures var r := RegimeOf(DEFAULTS);
      && Truncate(r.fast.positions) == 3 && Attains(r, NOTHING.Set(Fast, 5, 0))
      && Truncate(r.smc.positions) == 2 && Attains(r, NOTHING.Set(Smc, 3, 0))
      && Truncate(r.global.positions) == 5 && AccountCapacity(r) == 8 && !AlwaysWithin(r, Everything, 7)
  {
    var r := RegimeOf(DEFAULTS);
    DefaultLimits();
    DefaultCapacities(r);
    DeskBoundIsAttained(r, Fast);
    DeskBoundIsAttained(r, Smc);
    AccountLimitKeptIff(r, 7);
  }

  const CAP_OF_ONE := Settings(2, 2, 2, 1.0, 1.0, Overrides(None, None, Some(1.0), None, None, None))

  /** With the account limited to one position and each symbol to two, some run holds four
      positions in a single symbol. */
  lemma CapOfOneOvershoots(s: string)
    requires s != "" && Symbols.Upper(s) == s
    ensures var r := RegimeOf(CAP_OF_ONE);
      && Truncate(r.global.positions) == 1 && Truncate(r.global.perSymbol) == 2
      && AccountCapacity(ForOneSymbol(r)) == 4 && !AlwaysWithin(r, OfSymbol(s), 3) && AlwaysWithin(r, OfSymbol(s), 4)
  {
    var r := RegimeOf(CAP_OF_ONE);
    EvenShares(CAP_OF_ONE);
    assert Slots(1.0, 0.5) == 1 && Slots(5.0, 0.5) == 2;
    OneSymbolCaps(r);
    SymbolLimitKeptIff(r, s, 3);
    SymbolLimitKeptIff(r, s, 4);
  }
}
