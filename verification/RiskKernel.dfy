/** The risk kernel: usage bookkeeping, the entry gate, the action gate and the kill switch. */
module RiskKernel {
  import opened Wrappers
  import opened RiskLimits
  import opened Ownership
  import PySeq
  import Symbols

  datatype OpenPosition = OpenPosition(symbol: string, volume: real)

  /** The account figures of one refresh; a missing count is None. */
  datatype Account = Account(
    openCount: Option<int>,
    pendingCount: Option<int>,
    drawdown: real,
    gross: real,
    positions: seq<OpenPosition>,
    orders: nat)

  datatype Usage = Usage(
    drawdown: real,
    positions: int,
    pending: int,
    gross: real,
    perSymbol: map<string, int>,
    deskPositions: map<Owner, int>,
    deskPending: map<Owner, int>)

  const NO_USAGE := Usage(0.0, 0, 0, 0.0, map[], map[], map[])

  function Lookup<K>(m: map<K, int>, k: K): int {
    if k in m then m[k] else 0
  }

  function Abs(x: real): real { if x < 0.0 then -x else x }

  function GrossVolume(ps: seq<OpenPosition>): real {
    if ps == [] then 0.0 else GrossVolume(ps[..|ps| - 1]) + Abs(ps[|ps| - 1].volume)
  }

  function SymbolCount(ps: seq<OpenPosition>, s: string): int {
    if ps == [] then 0
    else SymbolCount(ps[..|ps| - 1], s) + (if s != "" && Symbols.Upper(ps[|ps| - 1].symbol) == s then 1 else 0)
  }

  function DeskCount(rows: seq<Row>, owner: Owner, kind: Kind): int {
    if rows == [] then 0
    else
      var r := rows[|rows| - 1];
      DeskCount(rows[..|rows| - 1], owner, kind)
      + (if owner != Unassigned && r.owner == owner && r.uid.kind == kind then 1 else 0)
  }

  /** A reported count of zero, like a missing one, is replaced by the length of the list. */
  function CountOr(reported: Option<int>, listed: nat): int {
    if reported.Some? && reported.value != 0 then reported.value else listed
  }

  /** u is what the account and the open ownership rows amount to. */
  ghost predicate IsUsage(u: Usage, a: Account, rows: seq<Row>) {
    && u.drawdown == a.drawdown
    && u.positions == CountOr(a.openCount, |a.positions|)
    && u.pending == CountOr(a.pendingCount, a.orders)
    && u.gross == (if a.gross > 0.0 then a.gross else GrossVolume(a.positions))
    && (forall s :: Lookup(u.perSymbol, s) == SymbolCount(a.positions, s))
    && (forall o :: Lookup(u.deskPositions, o) == DeskCount(rows, o, PositionOp))
    && (forall o :: Lookup(u.deskPending, o) == DeskCount(rows, o, OrderOp))
  }

  /** A reported count holds, except that a zero is overruled by the list, as a missing one is. */
  lemma ListOverrulesZero(u: Usage, a: Account, rows: seq<Row>)
    requires IsUsage(u, a, rows)
    ensures a.openCount in {None, Some(0)} ==> u.positions == |a.positions|
    ensures a.openCount !in {None, Some(0)} ==> a.openCount == Some(u.positions)
    ensures a.pendingCount in {None, Some(0)} ==> u.pending == a.orders
    ensures a.pendingCount !in {None, Some(0)} ==> a.pendingCount == Some(u.pending)
    ensures u.gross == if a.gross <= 0.0 then GrossVolume(a.positions) else a.gross
  {
  }

  /** The places of a list at which a symbol stands, in any case. */
  function SymbolPlaces(ps: seq<OpenPosition>, s: string): set<nat> {
    set i: nat | i < |ps| && Symbols.Upper(ps[i].symbol) == s
  }

  /** The places at which a desk owns a row of a kind. */
  function DeskPlaces(rows: seq<Row>, owner: Owner, kind: Kind): set<nat> {
    set i: nat | i < |rows| && rows[i].owner == owner && rows[i].uid.kind == kind
  }

  /** A symbol's count is the number of positions listed under it. */
  lemma {:induction false} SymbolCountIs(ps: seq<OpenPosition>, s: string)
    requires s != ""
    ensures SymbolCount(ps, s) == |SymbolPlaces(ps, s)|
  {
    if ps != [] {
      var n := |ps| - 1;
      SymbolCountIs(ps[..n], s);
      PySeq.OneMorePlace(SymbolPlaces(ps, s), SymbolPlaces(ps[..n], s), n, Symbols.Upper(ps[n].symbol) == s);
    }
  }

  /** A desk's count is the number of rows of the kind that it owns. */
  lemma {:induction false} DeskCountIs(rows: seq<Row>, owner: Owner, kind: Kind)
    requires owner != Unassigned
    ensures DeskCount(rows, owner, kind) == |DeskPlaces(rows, owner, kind)|
  {
    if rows != [] {
      var n := |rows| - 1;
      DeskCountIs(rows[..n], owner, kind);
      PySeq.OneMorePlace(DeskPlaces(rows, owner, kind), DeskPlaces(rows[..n], owner, kind), n,
                   rows[n].owner == owner && rows[n].uid.kind == kind);
    }
  }

  /** The gross volume adds up over the list. */
  lemma {:induction false} GrossAddsUp(a: seq<OpenPosition>, b: seq<OpenPosition>)
    ensures GrossVolume(a + b) == GrossVolume(a) + GrossVolume(b)
  {
    if b == [] {
      assert a + b == a;
    } else {
      assert (a + b)[..|a + b| - 1] == a + b[..|b| - 1];
      GrossAddsUp(a, b[..|b| - 1]);
    }
  }

  /** And each position adds its volume without the sign. */
  lemma GrossOfOne(p: OpenPosition)
    ensures GrossVolume([p]) >= 0.0 && (GrossVolume([p]) == p.volume || GrossVolume([p]) == -p.volume)
  {
    assert [p][..0] == [];
  }

  lemma {:induction false} GrossNonNegative(ps: seq<OpenPosition>)
    ensures GrossVolume(ps) >= 0.0
  {
    if ps != [] { GrossNonNegative(ps[..|ps| - 1]); }
  }

  /** `int` on a float: towards zero. */
  function Truncate(x: real): int {
    if x >= 0.0 then x.Floor else -((-x).Floor)
  }

  /** The whole number next to x on the side of zero. */
  lemma TruncateIs(x: real, n: int)
    ensures n == Truncate(x) <==>
      if x >= 0.0 then n as real <= x < (n + 1) as real else (n - 1) as real < x <= n as real
  {
  }

  datatype Reason =
    | InvalidDesk
    | KillSwitchTripped
    | DrawdownBreached
    | GlobalPositionsLimit
    | SymbolPositionsLimit
    | GlobalPendingLimit
    | GlobalGrossLimit
    | DeskPositionsLimit
    | DeskPendingLimit

  function DeskLimitsOf(s: Settings, desk: Owner): Limits {
    if desk == Fast then FastLimits(s) else SmcLimits(s)
  }

  /** Why an entry may be refused, given the global limits and the desk's. */
  predicate Blocks(g: Limits, d: Limits, tripped: bool, u: Usage, desk: Owner, symbol: string, r: Reason) {
    if desk == Unassigned then r == InvalidDesk
    else match r
      case InvalidDesk => false
      case KillSwitchTripped => tripped
      case DrawdownBreached => u.drawdown > g.drawdown
      case GlobalPositionsLimit => u.positions >= Truncate(g.positions)
      case SymbolPositionsLimit => Lookup(u.perSymbol, Symbols.Upper(symbol)) >= Truncate(g.perSymbol)
      case GlobalPendingLimit => u.pending >= Truncate(g.pending)
      case GlobalGrossLimit => u.gross >= g.gross
      case DeskPositionsLimit => Lookup(u.deskPositions, desk) >= Truncate(d.positions)
      case DeskPendingLimit => Lookup(u.deskPending, desk) >= Truncate(d.pending)
  }

  ghost predicate Admitted(g: Limits, d: Limits, tripped: bool, u: Usage, desk: Owner, symbol: string) {
    forall r :: !Blocks(g, d, tripped, u, desk, symbol, r)
  }

  /** The checks of the entry gate, in order. */
  const CHECKS: seq<Reason> := [
    InvalidDesk, KillSwitchTripped, DrawdownBreached, GlobalPositionsLimit, SymbolPositionsLimit,
    GlobalPendingLimit, GlobalGrossLimit, DeskPositionsLimit, DeskPendingLimit ]

  lemma ChecksAreAll(r: Reason)
    ensures r in CHECKS
  {
  }

  function Blocking(
    rs: seq<Reason>, g: Limits, d: Limits, tripped: bool, u: Usage, desk: Owner, symbol: string
  ): (out: seq<Reason>)
    ensures forall r :: r in out <==> r in rs && Blocks(g, d, tripped, u, desk, symbol, r)
  {
    if rs == [] then []
    else
      var rest := Blocking(rs[1..], g, d, tripped, u, desk, symbol);
      if Blocks(g, d, tripped, u, desk, symbol, rs[0]) then [rs[0]] + rest else rest
  }

  /** The reasons against an entry, in the order of the checks. */
  function Reasons(g: Limits, d: Limits, tripped: bool, u: Usage, desk: Owner, symbol: string): (out: seq<Reason>)
    ensures forall r :: r in out <==> Blocks(g, d, tripped, u, desk, symbol, r)
  {
    assert forall r :: r in CHECKS by {
      forall r: Reason ensures r in CHECKS { ChecksAreAll(r); }
    }
    Blocking(CHECKS, g, d, tripped, u, desk, symbol)
  }

  /** Where a check stands among the checks of the gate. */
  function Rank(r: Reason): nat {
    match r
    case InvalidDesk => 0
    case KillSwitchTripped => 1
    case DrawdownBreached => 2
    case GlobalPositionsLimit => 3
    case SymbolPositionsLimit => 4
    case GlobalPendingLimit => 5
    case GlobalGrossLimit => 6
    case DeskPositionsLimit => 7
    case DeskPendingLimit => 8
  }

  ghost predicate Ranked(rs: seq<Reason>) {
    forall i, j :: 0 <= i < j < |rs| ==> Rank(rs[i]) < Rank(rs[j])
  }

  lemma {:induction false} BlockingIsRanked(
    rs: seq<Reason>, g: Limits, d: Limits, tripped: bool, u: Usage, desk: Owner, symbol: string)
    requires Ranked(rs)
    ensures Ranked(Blocking(rs, g, d, tripped, u, desk, symbol))
  {
    if rs != [] {
      BlockingIsRanked(rs[1..], g, d, tripped, u, desk, symbol);
      var rest := Blocking(rs[1..], g, d, tripped, u, desk, symbol);
      forall i | 0 <= i < |rest| ensures Rank(rs[0]) < Rank(rest[i]) {
        assert rest[i] in rest;
        var j :| 0 <= j < |rs| - 1 && rs[1..][j] == rest[i];
        assert rs[j + 1] == rest[i];
      }
    }
  }

  lemma RankedOnce(rs: seq<Reason>, r: Reason)
    requires Ranked(rs) && r in rs && forall x :: x in rs ==> x == r
    ensures rs == [r]
  {
    var k := |rs| - 1;
    assert rs[0] in rs && rs[k] in rs;
    assert Rank(rs[0]) == Rank(rs[k]);
    assert k == 0;
  }

  /** Each reason is given once, in the order of the checks; a desk that is none has its own. */
  lemma ReasonsAreRanked(g: Limits, d: Limits, tripped: bool, u: Usage, desk: Owner, symbol: string)
    ensures Ranked(Reasons(g, d, tripped, u, desk, symbol))
    ensures desk == Unassigned ==> Reasons(g, d, tripped, u, desk, symbol) == [InvalidDesk]
    ensures desk != Unassigned ==> InvalidDesk !in Reasons(g, d, tripped, u, desk, symbol)
  {
    ChecksAreRanked();
    BlockingIsRanked(CHECKS, g, d, tripped, u, desk, symbol);
    var rs := Reasons(g, d, tripped, u, desk, symbol);
    if desk == Unassigned { RankedOnce(rs, InvalidDesk); }
  }

  lemma ChecksAreRanked()
    ensures Ranked(CHECKS)
  {
  }

  const DEFENSIVE_ACTIONS: set<string> := {
    "close_position", "reduce_position", "remove_order",
    "modify_position_levels", "modify_order_levels", "trail_stop" }

  class RiskKernel {
    var settings: Settings
    var killSwitchEnabled: bool
    var tripped: bool
    var usage: Usage

    constructor (settings: Settings, killSwitchEnabled: bool)
      ensures this.settings == settings && this.killSwitchEnabled == killSwitchEnabled
      ensures !tripped && usage == NO_USAGE
    {
      this.settings, this.killSwitchEnabled := settings, killSwitchEnabled;
      tripped, usage := false, NO_USAGE;
    }

    /** `update_usage`. */
    method UpdateUsage(a: Account, rows: seq<Row>)
      modifies this`usage
      ensures IsUsage(usage, a, rows)
    {
      var gross := a.gross;
      if gross <= 0.0 {
        gross := 0.0;
        for i := 0 to |a.positions|
          invariant gross == GrossVolume(a.positions[..i])
        {
          assert a.positions[..i + 1][..i] == a.positions[..i];
          gross := gross + Abs(a.positions[i].volume);
        }
        assert a.positions[..|a.positions|] == a.positions;
      }
      var perSymbol := CountSymbols(a.positions);
      var deskPositions, deskPending := CountDesks(rows);
      usage := Usage(a.drawdown, CountOr(a.openCount, |a.positions|), CountOr(a.pendingCount, a.orders),
                     gross, perSymbol, deskPositions, deskPending);
    }

    /** `evaluate_entry`: the reasons against an entry, and whether there are none. */
    method EvaluateEntry(desk: string, symbol: string) returns (allowed: bool, reasons: seq<Reason>)
      ensures
        var owner := OwnerOf(desk);
        var g, d := GlobalLimits(settings), DeskLimitsOf(settings, owner);
        && (allowed <==> Admitted(g, d, killSwitchEnabled && tripped, usage, owner, symbol))
        && reasons == Reasons(g, d, killSwitchEnabled && tripped, usage, owner, symbol)
    {
      var owner := OwnerOf(desk);
      var g, d := GlobalLimits(settings), DeskLimitsOf(settings, owner);
      reasons := Reasons(g, d, killSwitchEnabled && tripped, usage, owner, symbol);
      allowed := reasons == [];
      if !allowed {
        assert reasons[0] in reasons;
      }
    }

    /** `evaluate_action`: a tripped switch stops everything except what reduces risk. */
    method EvaluateAction(action: string) returns (allowed: bool)
      ensures var a := Symbols.Lower(Symbols.Strip(action));
        allowed <==>
          || !(killSwitchEnabled && tripped)
          || a == "close_position" || a == "reduce_position" || a == "remove_order"
          || a == "modify_position_levels" || a == "modify_order_levels" || a == "trail_stop"
    {
      var normalized := Symbols.Lower(Symbols.Strip(action));
      if normalized in DEFENSIVE_ACTIONS { return true; }
      if killSwitchEnabled && tripped { return false; }
      allowed := true;
    }

    /** `set_profiles`: profiles are clamped, given overrides replace earlier ones. */
    method SetProfiles(global: Option<int>, fast: Option<int>, smc: Option<int>, overrides: Overrides)
      modifies this`settings
      ensures settings.profileGlobal == (if global.Some? then ClampProfile(global.value) else old(settings.profileGlobal))
      ensures settings.profileFast == (if fast.Some? then ClampProfile(fast.value) else old(settings.profileFast))
      ensures settings.profileSmc == (if smc.Some? then ClampProfile(smc.value) else old(settings.profileSmc))
      ensures settings.fastWeight == old(settings.fastWeight) && settings.smcWeight == old(settings.smcWeight)
      ensures settings.overrides == Merged(old(settings.overrides), overrides)
    {
      if global.Some? { settings := settings.(profileGlobal := ClampProfile(global.value)); }
      if fast.Some? { settings := settings.(profileFast := ClampProfile(fast.value)); }
      if smc.Some? { settings := settings.(profileSmc := ClampProfile(smc.value)); }
      settings := settings.(overrides := Merged(settings.overrides, overrides));
    }

    method TripKillSwitch()
      modifies this`tripped
      ensures tripped
    {
      tripped := true;
    }

    method ResetKillSwitch()
      modifies this`tripped
      ensures !tripped
    {
      tripped := false;
    }
  }

  function Given(new_: Option<real>, old_: Option<real>): Option<real> {
    if new_.Some? then new_ else old_
  }

  /** Overrides that are given replace those in force. */
  function Merged(o: Overrides, n: Overrides): Overrides {
    Overrides(Given(n.drawdown, o.drawdown), Given(n.riskPerTrade, o.riskPerTrade), Given(n.positions, o.positions),
              Given(n.perSymbol, o.perSymbol), Given(n.pending, o.pending), Given(n.gross, o.gross))
  }

  /** A new override is in force from then on, and one that is not given leaves what was. */
  lemma OverridesTakeEffect(s: Settings, n: Overrides)
    ensures var before, after := GlobalLimits(s), GlobalLimits(s.(overrides := Merged(s.overrides, n)));
      && after.drawdown == Or(n.drawdown, before.drawdown)
      && after.riskPerTrade == Or(n.riskPerTrade, before.riskPerTrade)
      && after.positions == Or(n.positions, before.positions)
      && after.perSymbol == Or(n.perSymbol, before.perSymbol)
      && after.pending == Or(n.pending, before.pending)
      && after.gross == Or(n.gross, before.gross)
  {
  }

  /** Overriding in two goes is overriding once with both, the later one winning. */
  lemma OverridesCompose(o: Overrides, a: Overrides, b: Overrides)
    ensures Merged(Merged(o, a), b) == Merged(o, Merged(a, b))
    ensures Merged(o, o) == o
  {
  }

  method CountSymbols(positions: seq<OpenPosition>) returns (perSymbol: map<string, int>)
    ensures forall s :: Lookup(perSymbol, s) == SymbolCount(positions, s)
  {
    perSymbol := map[];
    for i := 0 to |positions|
      invariant forall s :: Lookup(perSymbol, s) == SymbolCount(positions[..i], s)
    {
      assert positions[..i + 1][..i] == positions[..i];
      var symbol := Symbols.Upper(positions[i].symbol);
      if symbol == "" { continue; }
      perSymbol := perSymbol[symbol := Lookup(perSymbol, symbol) + 1];
    }
    assert positions[..|positions|] == positions;
  }

  method CountDesks(rows: seq<Row>) returns (positions: map<Owner, int>, pending: map<Owner, int>)
    ensures forall o :: Lookup(positions, o) == DeskCount(rows, o, PositionOp)
    ensures forall o :: Lookup(pending, o) == DeskCount(rows, o, OrderOp)
  {
    positions, pending := map[Fast := 0, Smc := 0], map[Fast := 0, Smc := 0];
    for i := 0 to |rows|
      invariant forall o :: Lookup(positions, o) == DeskCount(rows[..i], o, PositionOp)
      invariant forall o :: Lookup(pending, o) == DeskCount(rows[..i], o, OrderOp)
    {
      assert rows[..i + 1][..i] == rows[..i];
      var owner := rows[i].owner;
      if owner == Unassigned { continue; }
      if rows[i].uid.kind == PositionOp {
        positions := positions[owner := Lookup(positions, owner) + 1];
      } else {
        pending := pending[owner := Lookup(pending, owner) + 1];
      }
    }
    assert rows[..|rows|] == rows;
  }
}
