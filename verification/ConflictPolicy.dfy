/** The Fast desk's reading of the correlation matrix when it wants to enter. */
module ConflictPolicy {
  import opened Wrappers
  import opened CorrelationMatrix
  import PySeq
  import Symbols

  /** An open position as the broker lists it; the side may come under either name. */
  datatype Position = Position(symbol: string, side: Option<string>, direction: Option<string>)
  {
    function Name(): string { Symbols.Upper(symbol) }

    /** A side that is present but blank is not replaced by the direction. */
    function Side(): string {
      Symbols.Lower(if side.Some? then side.value else if direction.Some? then direction.value else "")
    }
  }

  datatype Verdict =
    | Clear
    | ImplicitHedge(symbol: string, other: string, r: real, newSide: string, openSide: string)
    | InverseConcentration(symbol: string, other: string, r: real, side: string)

  datatype Class = High | Moderate | Low | NoCorrelation | Unavailable

  function Abs(r: real): real { if r < 0.0 then -r else r }

  /** `classify`. */
  function Classify(coefficient: Option<real>, high: real, moderate: real): Class {
    if coefficient.None? then Unavailable
    else
      var a := Abs(coefficient.value);
      if a >= high then High else if a >= moderate then Moderate else if a > 0.0 then Low else NoCorrelation
  }

  function Lookup(m: Option<MatrixSnapshot>, a: string, b: string): Option<PairValue> {
    if m.Some? then m.value.GetPair(a, b) else None
  }

  /** The coefficient a decision may rely on. */
  function Usable(m: Option<MatrixSnapshot>, a: string, b: string): Option<real> {
    var v := Lookup(m, a, b);
    if v.None? || v.value.coefficient.None? || !v.value.coverageOk then None else v.value.coefficient
  }

  /** A new entry of symbol x on one side conflicts with an open position of symbol y. */
  predicate Conflicts(m: Option<MatrixSnapshot>, high: real, x: string, side: string, y: string, open: string) {
    && y != "" && y != x && open != "" && Usable(m, x, y).Some?
    && ((Usable(m, x, y).value >= high && side != open) || (Usable(m, x, y).value <= -high && side == open))
  }

  predicate Against(m: Option<MatrixSnapshot>, high: real, x: string, side: string, p: Position) {
    Conflicts(m, high, x, side, p.Name(), p.Side())
  }

  class FastCorrelationPolicy {
    const service: CorrelationService
    const high: real
    const moderate: real
    const timeframe: string

    constructor (service: CorrelationService, high: real, moderate: real, timeframe: string)
      ensures this.service == service && this.high == high && this.moderate == moderate
      ensures this.timeframe == Symbols.Upper(timeframe)
    {
      this.service, this.high, this.moderate, this.timeframe := service, high, moderate, Symbols.Upper(timeframe);
    }

    function TimeframeOf(requested: string): string {
      Symbols.Upper(if requested == "" then timeframe else requested)
    }

    /** The snapshot a decision reads. */
    function Snapshot(requested: string): (m: Option<MatrixSnapshot>)
      reads service
      ensures var t := Symbols.Upper(if requested != "" then requested else timeframe);
        m == if t in service.snapshots then Some(service.snapshots[t]) else None
    {
      Symbols.UpperIdempotent(if requested != "" then requested else timeframe);
      var t := Symbols.Upper(TimeframeOf(requested));
      if t in service.snapshots then Some(service.snapshots[t]) else None
    }

    /** `check_entry_conflict`: the first open position that conflicts decides. */
    method CheckEntryConflict(symbol: string, side: string, open: seq<Position>, requested: string)
      returns (v: Verdict)
      ensures v.Clear? <==> Admitted(Snapshot(requested), high, open, symbol, side)
      ensures var m, x, s := Snapshot(requested), Symbols.Upper(symbol), Symbols.Lower(side);
        && (!v.Clear? ==> exists k ::
              && 0 <= k < |open| && Against(m, high, x, s, open[k])
              && (forall l :: 0 <= l < k ==> !Against(m, high, x, s, open[l]))
              && v.symbol == x && v.other == open[k].Name() && Usable(m, x, open[k].Name()) == Some(v.r)
              && (v.ImplicitHedge? <==> v.r >= high && s != open[k].Side())
              && (if v.ImplicitHedge? then v.newSide == s && v.openSide == open[k].Side() else v.side == s))
    {
      var t := TimeframeOf(requested);
      var x, s := Symbols.Upper(symbol), Symbols.Lower(side);
      ghost var m := Snapshot(requested);
      for k := 0 to |open|
        invariant forall l :: 0 <= l < k ==> !Against(m, high, x, s, open[l])
      {
        var y, o := open[k].Name(), open[k].Side();
        if y == "" || y == x { continue; }
        var value := service.GetPair(x, y, t);
        assert value == Lookup(m, x, y);
        if value.None? || value.value.coefficient.None? || !value.value.coverageOk { continue; }
        var r := value.value.coefficient.value;
        if r >= high && s != o && o != "" { return ImplicitHedge(x, y, r, s, o); }
        if r <= -high && s == o && o != "" { return InverseConcentration(x, y, r, s); }
      }
      v := Clear;
    }
  }

  // ---- Symmetry ----

  ghost predicate Sound(m: Option<MatrixSnapshot>) {
    m.Some? ==> m.value.Triangular()
  }

  predicate InCapitals(s: string) {
    Symbols.Upper(s) == s
  }

  lemma UsableIsSymmetric(m: Option<MatrixSnapshot>, x: string, y: string)
    requires Sound(m) && InCapitals(x) && InCapitals(y)
    ensures Usable(m, x, y) == Usable(m, y, x)
    ensures Usable(m, x, y).Some? ==> x != "" && y != "" && x != y
  {
    if m.Some? { m.value.TriangularLookup(x, y); }
  }

  /** Which of two entries comes first matters exactly when one of them has no side and the
      pair moves together; for buys and sells it never matters. */
  lemma OrderMattersIff(m: Option<MatrixSnapshot>, high: real, x: string, side: string, y: string, open: string)
    requires Sound(m) && InCapitals(x) && InCapitals(y)
    ensures Conflicts(m, high, x, side, y, open) != Conflicts(m, high, y, open, x, side) <==>
      ((side == "") != (open == "")) && Usable(m, x, y).Some? && Usable(m, x, y).value >= high
  {
    UsableIsSymmetric(m, x, y);
  }

  /** Of the two sides a highly correlated pair forbids exactly one, any other pair none. */
  lemma HighPairForbidsOneSide(m: Option<MatrixSnapshot>, high: real, moderate: real, x: string, y: string, open: string)
    requires Sound(m) && InCapitals(x) && InCapitals(y) && high > 0.0 && open in {"buy", "sell"}
    ensures Classify(Usable(m, x, y), high, moderate) == High <==>
      Conflicts(m, high, x, "buy", y, open) || Conflicts(m, high, x, "sell", y, open)
    ensures !(Conflicts(m, high, x, "buy", y, open) && Conflicts(m, high, x, "sell", y, open))
  {
    UsableIsSymmetric(m, x, y);
    assert "buy" != "sell";
  }

  // ---- Portfolios built only from admitted entries ----

  datatype Step = Enter(symbol: string, side: string) | Close(index: nat)

  predicate Admitted(m: Option<MatrixSnapshot>, high: real, open: seq<Position>, symbol: string, side: string) {
    forall k :: 0 <= k < |open| ==> !Against(m, high, Symbols.Upper(symbol), Symbols.Lower(side), open[k])
  }

  function After(m: Option<MatrixSnapshot>, high: real, steps: seq<Step>): seq<Position>
    decreases |steps|
  {
    if steps == [] then []
    else
      var open := After(m, high, steps[..|steps| - 1]);
      match steps[|steps| - 1]
      case Enter(symbol, side) =>
        if Admitted(m, high, open, symbol, side) then open + [Position(symbol, Some(side), None)] else open
      case Close(k) =>
        if k < |open| then open[..k] + open[k + 1..] else open
  }

  /** No later position conflicts with an earlier one. */
  ghost predicate InOrder(m: Option<MatrixSnapshot>, high: real, open: seq<Position>) {
    forall i, j :: 0 <= i < j < |open| ==> !Against(m, high, open[j].Name(), open[j].Side(), open[i])
  }

  lemma EnterStaysInOrder(m: Option<MatrixSnapshot>, high: real, open: seq<Position>, symbol: string, side: string)
    requires InOrder(m, high, open) && Admitted(m, high, open, symbol, side)
    ensures InOrder(m, high, open + [Position(symbol, Some(side), None)])
  {
    var p := Position(symbol, Some(side), None);
    assert p.Name() == Symbols.Upper(symbol) && p.Side() == Symbols.Lower(side);
  }

  lemma CloseStaysInOrder(m: Option<MatrixSnapshot>, high: real, open: seq<Position>, k: nat)
    requires InOrder(m, high, open) && k < |open|
    ensures InOrder(m, high, open[..k] + open[k + 1..])
  {
  }

  lemma {:induction false} AdmissionsStayInOrder(m: Option<MatrixSnapshot>, high: real, steps: seq<Step>)
    ensures InOrder(m, high, After(m, high, steps))
    decreases |steps|
  {
    if steps != [] {
      AdmissionsStayInOrder(m, high, steps[..|steps| - 1]);
      var open := After(m, high, steps[..|steps| - 1]);
      match steps[|steps| - 1]
      case Enter(symbol, side) =>
        if Admitted(m, high, open, symbol, side) { EnterStaysInOrder(m, high, open, symbol, side); }
      case Close(k) =>
        if k < |open| { CloseStaysInOrder(m, high, open, k); }
    }
  }

  /** A portfolio that only admitted entries and closes have built, against one snapshot, is
      free of conflicts whichever position is taken as the new one, unless that one has no side. */
  lemma PortfolioIsConflictFree(m: Option<MatrixSnapshot>, high: real, steps: seq<Step>)
    requires Sound(m)
    ensures var open := After(m, high, steps);
      forall i, j :: 0 <= i < |open| && 0 <= j < |open| && i != j && open[i].Side() != "" ==>
        !Against(m, high, open[i].Name(), open[i].Side(), open[j])
  {
    var open := After(m, high, steps);
    AdmissionsStayInOrder(m, high, steps);
    forall i, j | 0 <= i < |open| && 0 <= j < |open| && i != j && open[i].Side() != ""
      ensures !Against(m, high, open[i].Name(), open[i].Side(), open[j])
    {
      Symbols.UpperIdempotent(open[i].symbol);
      Symbols.UpperIdempotent(open[j].symbol);
      OrderMattersIff(m, high, open[i].Name(), open[i].Side(), open[j].Name(), open[j].Side());
    }
  }

  lemma EarlierAgrees(m: Option<MatrixSnapshot>, high: real, open: seq<Position>, i: nat, j: nat)
    requires Sound(m) && high > 0.0 && InOrder(m, high, open) && i < j < |open|
    requires Usable(m, open[i].Name(), open[j].Name()).Some? && open[i].Side() != ""
    ensures Usable(m, open[i].Name(), open[j].Name()).value >= high ==> open[i].Side() == open[j].Side()
    ensures Usable(m, open[i].Name(), open[j].Name()).value <= -high ==> open[i].Side() != open[j].Side()
  {
    Symbols.UpperIdempotent(open[i].symbol);
    Symbols.UpperIdempotent(open[j].symbol);
    UsableIsSymmetric(m, open[i].Name(), open[j].Name());
    assert !Against(m, high, open[j].Name(), open[j].Side(), open[i]);
  }

  /** In such a portfolio two positions whose symbols move together are on the same side, and two
      whose symbols move against each other are on different sides. */
  lemma PortfolioSidesAgree(m: Option<MatrixSnapshot>, high: real, steps: seq<Step>, i: nat, j: nat, r: real)
    requires Sound(m) && high > 0.0 && i < |After(m, high, steps)| && j < |After(m, high, steps)| && i != j
    requires var open := After(m, high, steps);
      open[i].Side() != "" && open[j].Side() != "" && Usable(m, open[i].Name(), open[j].Name()) == Some(r)
    ensures var open := After(m, high, steps);
      && (r >= high ==> open[i].Side() == open[j].Side())
      && (r <= -high ==> open[i].Side() != open[j].Side())
  {
    var open := After(m, high, steps);
    AdmissionsStayInOrder(m, high, steps);
    Symbols.UpperIdempotent(open[i].symbol);
    Symbols.UpperIdempotent(open[j].symbol);
    UsableIsSymmetric(m, open[i].Name(), open[j].Name());
    if i < j { EarlierAgrees(m, high, open, i, j); } else { EarlierAgrees(m, high, open, j, i); }
  }

  // ---- What a decision relies on ----

  /** A coefficient a decision relies on belongs to two different followed symbols that share
      enough epochs, and is what measuring them gives; where there is such a one it is relied on. */
  lemma UsableIff(m: MatrixSnapshot, symbols: seq<string>, f: Feed, e: Engine, a: string, b: string, p: Pair, n: nat)
    requires f.Ok() && e.Sound() && IsMatrix(m, symbols, Measuring(f, e)) && PySeq.Distinct(symbols)
    requires p == Pair(Symbols.Upper(a), Symbols.Upper(b)) && n == |Shared(p, f, e)|
    ensures Usable(Some(m), a, b) ==
      if p.a in symbols && p.b in symbols && p.a != p.b && n >= 3 && n >= e.minCoverage
      then Computed(p, f, e).coefficient else None
  {
    LookupIgnoresKeyOrder(m, symbols, f, e, a, b);
    if m.GetPair(a, b).Some? {
      LookupCoveredIff(m, symbols, f, e, a, b);
      FoundIsUsable(m, a, b, m.GetPair(a, b).value);
    }
  }

  lemma FoundIsUsable(m: MatrixSnapshot, a: string, b: string, v: PairValue)
    requires m.GetPair(a, b) == Some(v)
    ensures Usable(Some(m), a, b) == if v.coverageOk then v.coefficient else None
  {
  }

  /** A position whose side is present but blank stands in nobody's way, whatever its direction. */
  lemma BlankSideIsHarmless(m: Option<MatrixSnapshot>, high: real, x: string, side: string, p: Position)
    requires p.side == Some("")
    ensures !Against(m, high, x, side, p)
  {
  }

  /** A missing side is replaced by the direction; case never matters. */
  lemma DirectionStandsIn(m: Option<MatrixSnapshot>, high: real, x: string, side: string, p: Position, d: string)
    requires p.side == None && p.direction == Some(d)
    ensures Against(m, high, x, side, p) <==> Against(m, high, x, side, p.(side := Some(Symbols.Lower(d)), direction := None))
  {
    Symbols.LowerIdempotent(d);
  }

  /** The class of a pair depends on the size of its coefficient alone, and grows with it. */
  lemma ClassGrows(r: real, t: real, high: real, moderate: real)
    requires Abs(r) <= Abs(t) && high >= moderate > 0.0
    ensures ClassRank(Classify(Some(r), high, moderate)) <= ClassRank(Classify(Some(t), high, moderate))
    ensures Classify(Some(r), high, moderate) == Classify(Some(-r), high, moderate)
    ensures Classify(Some(r), high, moderate) == High <==> r >= high || r <= -high
    ensures Classify(Some(r), high, moderate) in {High, Moderate} <==> r >= moderate || r <= -moderate
    ensures Classify(Some(r), high, moderate) == NoCorrelation <==> r == 0.0
    ensures Classify(Some(r), high, moderate) != Unavailable == Classify(None, high, moderate)
  {
  }

  function ClassRank(c: Class): nat {
    match c
    case Unavailable => 0
    case NoCorrelation => 1
    case Low => 2
    case Moderate => 3
    case High => 4
  }
}
