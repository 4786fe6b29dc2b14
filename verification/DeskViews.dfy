/** What each trading desk is shown of the account. */
module DeskViews {
  import opened Wrappers
  import opened Ownership
  import opened OwnershipRegistry
  import opened OwnershipLaws
  import opened TicketFates

  /** The visibility test of `ownership_visible_ids_for_desk`, for a desk name already read. */
  predicate Visible(desk: string, r: Row) {
    if desk == "fast" then r.owner == Fast || r.status in {FastOwned, InheritedFast}
    else if desk == "smc" then r.owner == Smc || r.status == SmcOwned
    else false
  }

  function TicketOf(id: Option<int>): int {
    if id.Some? then id.value else 0
  }

  function VisiblePositionIds(s: Store, desk: string): set<int> {
    set u | u in ActiveUids(s) && Visible(desk, s[u]) && TicketOf(s[u].positionId) > 0 :: TicketOf(s[u].positionId)
  }

  function VisibleOrderIds(s: Store, desk: string): set<int> {
    set u | u in ActiveUids(s) && Visible(desk, s[u]) && TicketOf(s[u].orderId) > 0 :: TicketOf(s[u].orderId)
  }

  /** `ownership_visible_ids_for_desk`: one walk over the open rows fills both sets. */
  method VisibleIdsForDesk(r: OwnershipRegistry, desk: string) returns (positionIds: set<int>, orderIds: set<int>)
    requires WellFormed(r.store)
    ensures positionIds == VisiblePositionIds(r.store, DeskName(desk))
    ensures orderIds == VisibleOrderIds(r.store, DeskName(desk))
  {
    var name := DeskName(desk);
    positionIds, orderIds := {}, {};
    var rows := r.ListOpen();
    for i := 0 to |rows|
      invariant positionIds == set x | x in rows[..i] && Visible(name, x) && TicketOf(x.positionId) > 0 :: TicketOf(x.positionId)
      invariant orderIds == set x | x in rows[..i] && Visible(name, x) && TicketOf(x.orderId) > 0 :: TicketOf(x.orderId)
    {
      var row := rows[i];
      assert rows[..i + 1] == rows[..i] + [row];
      if !Visible(name, row) { continue; }
      var positionId, orderId := TicketOf(row.positionId), TicketOf(row.orderId);
      if positionId > 0 { positionIds := positionIds + {positionId}; }
      if orderId > 0 { orderIds := orderIds + {orderId}; }
    }
    assert rows[..|rows|] == rows;
    forall u | u in ActiveUids(r.store) ensures r.store[u] in rows && r.store[u].uid == u {
      assert ListsRow(rows, r.store, r.store[u]);
    }
    forall x | x in rows ensures x.uid in ActiveUids(r.store) && x == r.store[x.uid] {
      assert ListsRow(rows, r.store, x);
    }
  }

  /** The entries of a broker list that a desk may see, in the broker's order. */
  function Shown(ids: seq<int>, visible: set<int>): seq<int> {
    if ids == [] then []
    else (if ids[0] in visible then [ids[0]] else []) + Shown(ids[1..], visible)
  }

  /** The rows `ownership_open_for_desk` hands to a desk. */
  predicate OpenForDesk(desk: string, r: Row) {
    || (desk == "fast" && r.owner == Fast)
    || (desk == "smc" && r.owner == Smc)
    || (desk == "unassigned" && r.owner == Unassigned)
    || (desk == "fast" && r.status == InheritedFast)
  }

  lemma VisibleTicket(s: Store, desk: string, t: int)
    requires WellFormed(s)
    ensures t in VisiblePositionIds(s, desk) <==> Position(t) in ActiveUids(s) && Visible(desk, s[Position(t)])
    ensures t in VisibleOrderIds(s, desk) <==> Order(t) in ActiveUids(s) && Visible(desk, s[Order(t)])
  {
    if Position(t) in ActiveUids(s) { assert s[Position(t)].positionId == Some(t); }
    if Order(t) in ActiveUids(s) { assert s[Order(t)].orderId == Some(t); }
    forall u | u in ActiveUids(s) ensures
      && (TicketOf(s[u].positionId) > 0 ==> u == Position(TicketOf(s[u].positionId)))
      && (TicketOf(s[u].orderId) > 0 ==> u == Order(TicketOf(s[u].orderId)))
    {
      assert s[u].uid == u;
    }
  }

  /** No ticket is ever visible to both desks, in any reachable table. */
  lemma DesksNeverShare(s: Store)
    requires WellFormed(s)
    ensures VisiblePositionIds(s, "fast") !! VisiblePositionIds(s, "smc")
    ensures VisibleOrderIds(s, "fast") !! VisibleOrderIds(s, "smc")
  {
    forall t ensures t !in VisiblePositionIds(s, "fast") || t !in VisiblePositionIds(s, "smc") {
      VisibleTicket(s, "fast", t);
      VisibleTicket(s, "smc", t);
    }
    forall t ensures t !in VisibleOrderIds(s, "fast") || t !in VisibleOrderIds(s, "smc") {
      VisibleTicket(s, "fast", t);
      VisibleTicket(s, "smc", t);
    }
  }

  lemma DesksNeverShareInAnyRun(steps: seq<Step>)
    requires forall st :: st in steps ==> Possible(st)
    ensures var s := Run(map[], steps);
      && VisiblePositionIds(s, "fast") !! VisiblePositionIds(s, "smc")
      && VisibleOrderIds(s, "fast") !! VisibleOrderIds(s, "smc")
  {
    RunKeepsWellFormed(map[], steps);
    DesksNeverShare(Run(map[], steps));
  }

  /** A desk's open rows are exactly the rows whose tickets it is shown. */
  lemma OpenRowsAreVisibleRows(s: Store, u: Uid, desk: string)
    requires WellFormed(s) && u in s && desk in {"fast", "smc"}
    ensures OpenForDesk(desk, s[u]) <==> Visible(desk, s[u])
  {
    assert Coherent(s[u]);
  }

  /** In a well-formed table the owner alone decides which desk sees a ticket. */
  lemma OwnerDecidesView(s: Store, t: int)
    requires WellFormed(s)
    ensures t in VisiblePositionIds(s, "fast") <==> Position(t) in ActiveUids(s) && s[Position(t)].owner == Fast
    ensures t in VisiblePositionIds(s, "smc") <==> Position(t) in ActiveUids(s) && s[Position(t)].owner == Smc
    ensures t in VisibleOrderIds(s, "fast") <==> Order(t) in ActiveUids(s) && s[Order(t)].owner == Fast
    ensures t in VisibleOrderIds(s, "smc") <==> Order(t) in ActiveUids(s) && s[Order(t)].owner == Smc
  {
    VisibleTicket(s, "fast", t);
    VisibleTicket(s, "smc", t);
    if Position(t) in s { assert Coherent(s[Position(t)]); }
    if Order(t) in s { assert Coherent(s[Order(t)]); }
  }

  /** After a pass with adoption on, the owner's desk, and no other, sees a reported ticket; only
      a ticket whose row is unassigned is seen by none. */
  lemma ReportedTicketHasOneDesk(s: Store, p: Pass, t: int)
    requires WellFormed(s) && PositivePass(p) && p.adopt
    ensures t in p.positions <==> Position(t) in ActiveUids(Reconciled(s, p))
    ensures t in p.orders <==> Order(t) in ActiveUids(Reconciled(s, p))
    ensures forall u :: u in ActiveUids(Reconciled(s, p)) && u == Position(t) ==>
      && ((t in VisiblePositionIds(Reconciled(s, p), "fast")) <==> Reconciled(s, p)[u].owner == Fast)
      && ((t in VisiblePositionIds(Reconciled(s, p), "smc")) <==> Reconciled(s, p)[u].owner == Smc)
    ensures forall u :: u in ActiveUids(Reconciled(s, p)) && u == Order(t) ==>
      && ((t in VisibleOrderIds(Reconciled(s, p), "fast")) <==> Reconciled(s, p)[u].owner == Fast)
      && ((t in VisibleOrderIds(Reconciled(s, p), "smc")) <==> Reconciled(s, p)[u].owner == Smc)
  {
    ReconciledKeepsWellFormed(s, p);
    OwnerDecidesView(Reconciled(s, p), t);
    ActiveAfter(s, p, Position(t));
    ActiveAfter(s, p, Order(t));
  }

  ghost predicate NoneUnassigned(s: Store) {
    forall u :: u in ActiveUids(s) ==> s[u].owner != Unassigned
  }

  lemma {:induction false} ShownSplits(ids: seq<int>, a: set<int>, b: set<int>)
    requires a !! b
    ensures multiset(Shown(ids, a)) + multiset(Shown(ids, b)) == multiset(Shown(ids, a + b))
  {
    if ids != [] {
      ShownSplits(ids[1..], a, b);
    }
  }

  lemma {:induction false} ShownMember(ids: seq<int>, visible: set<int>, t: int)
    ensures t in Shown(ids, visible) <==> t in ids && t in visible
  {
    if ids != [] { ShownMember(ids[1..], visible, t); }
  }

  /** Every entry of the list with a positive id goes to exactly one of the two payloads,
      repetitions included. */
  ghost predicate Splits(ids: seq<int>, fast: set<int>, smc: set<int>) {
    multiset(Shown(ids, fast)) + multiset(Shown(ids, smc)) == multiset(Shown(ids, PositiveIds(ids)))
  }

  lemma SplitsIff(ids: seq<int>, fast: set<int>, smc: set<int>)
    requires fast !! smc && fast + smc <= PositiveIds(ids)
    ensures Splits(ids, fast, smc) <==> PositiveIds(ids) <= fast + smc
  {
    ShownSplits(ids, fast, smc);
    if PositiveIds(ids) <= fast + smc {
      assert fast + smc == PositiveIds(ids);
    } else {
      var t :| t in PositiveIds(ids) && t !in fast + smc;
      ShownMember(ids, PositiveIds(ids), t);
      ShownMember(ids, fast + smc, t);
      assert t in multiset(Shown(ids, PositiveIds(ids))) && t !in multiset(Shown(ids, fast + smc));
    }
  }

  /** No active row of ticket t is unassigned. */
  ghost predicate TicketOwned(s: Store, t: int) {
    && (Position(t) in ActiveUids(s) ==> s[Position(t)].owner != Unassigned)
    && (Order(t) in ActiveUids(s) ==> s[Order(t)].owner != Unassigned)
  }

  lemma NoneUnassignedIs(s: Store)
    ensures NoneUnassigned(s) <==> forall t :: TicketOwned(s, t)
  {
    forall u | u in ActiveUids(s) && forall t :: TicketOwned(s, t) ensures s[u].owner != Unassigned {
      assert TicketOwned(s, u.ticket);
      match u.kind
      case PositionOp => assert u == Position(u.ticket);
      case OrderOp => assert u == Order(u.ticket);
    }
  }

  ghost function ShownPositions(s: Store): set<int> {
    VisiblePositionIds(s, "fast") + VisiblePositionIds(s, "smc")
  }

  ghost function ShownOrders(s: Store): set<int> {
    VisibleOrderIds(s, "fast") + VisibleOrderIds(s, "smc")
  }

  /** Ticket t is shown to one of the desks if it is reported. */
  ghost predicate TicketShown(s: Store, p: Pass, t: int) {
    (t in p.positions ==> t in ShownPositions(s)) && (t in p.orders ==> t in ShownOrders(s))
  }

  lemma TicketShownIff(s: Store, p: Pass, t: int)
    requires WellFormed(s) && PositivePass(p) && p.adopt
    ensures t in ShownPositions(Reconciled(s, p)) ==> t in p.positions
    ensures t in ShownOrders(Reconciled(s, p)) ==> t in p.orders
    ensures TicketShown(Reconciled(s, p), p, t) <==> TicketOwned(Reconciled(s, p), t)
  {
    ReconciledKeepsWellFormed(s, p);
    ReportedTicketHasOneDesk(s, p, t);
    OwnerDecidesView(Reconciled(s, p), t);
  }

  lemma AllShownIff(s: Store, p: Pass)
    requires WellFormed(s) && PositivePass(p) && p.adopt
    ensures ShownPositions(Reconciled(s, p)) <= p.positions && ShownOrders(Reconciled(s, p)) <= p.orders
    ensures NoneUnassigned(Reconciled(s, p)) <==>
      p.positions <= ShownPositions(Reconciled(s, p)) && p.orders <= ShownOrders(Reconciled(s, p))
  {
    var after := Reconciled(s, p);
    NoneUnassignedIs(after);
    forall t ensures TicketShown(after, p, t) <==> TicketOwned(after, t) { TicketShownIff(s, p, t); }
    forall t | t in ShownPositions(after) ensures t in p.positions { TicketShownIff(s, p, t); }
    forall t | t in ShownOrders(after) ensures t in p.orders { TicketShownIff(s, p, t); }
    AllShownIs(after, p);
  }

  lemma AllShownIs(s: Store, p: Pass)
    ensures (forall t :: TicketShown(s, p, t)) <==> p.positions <= ShownPositions(s) && p.orders <= ShownOrders(s)
  {
    if forall t :: TicketShown(s, p, t) {
      forall t | t in p.positions ensures t in ShownPositions(s) { assert TicketShown(s, p, t); }
      forall t | t in p.orders ensures t in ShownOrders(s) { assert TicketShown(s, p, t); }
    }
  }

  /** The two payloads split the broker's lists exactly when the pass leaves no active row
      unassigned. */
  lemma PassPartitionsPayloadsIff(s: Store, b: Broker, now: int, cutoff: int)
    requires WellFormed(s)
    ensures var after := Reconciled(s, PassOf(b, true, now, cutoff));
      && Splits(b.positions, VisiblePositionIds(after, "fast"), VisiblePositionIds(after, "smc"))
      && Splits(b.orders, VisibleOrderIds(after, "fast"), VisibleOrderIds(after, "smc"))
      <==> NoneUnassigned(after)
  {
    var p := PassOf(b, true, now, cutoff);
    var after := Reconciled(s, p);
    ReconciledKeepsWellFormed(s, p);
    DesksNeverShare(after);
    AllShownIff(s, p);
    SplitsIff(b.positions, VisiblePositionIds(after, "fast"), VisiblePositionIds(after, "smc"));
    SplitsIff(b.orders, VisibleOrderIds(after, "fast"), VisibleOrderIds(after, "smc"));
  }

  /** If no row had been without a desk, the payloads split the broker's lists outright. */
  lemma OwnedPayloadsSplit(s: Store, b: Broker, now: int, cutoff: int)
    requires WellFormed(s) && AllOwned(s)
    ensures var after := Reconciled(s, PassOf(b, true, now, cutoff));
      && Splits(b.positions, VisiblePositionIds(after, "fast"), VisiblePositionIds(after, "smc"))
      && Splits(b.orders, VisibleOrderIds(after, "fast"), VisibleOrderIds(after, "smc"))
  {
    PassKeepsOwned(s, PassOf(b, true, now, cutoff));
    PassPartitionsPayloadsIff(s, b, now, cutoff);
  }

  /** So they do after every run from the empty table that ends in a pass and in which
      registrations name a desk. */
  lemma PayloadsSplitInEveryRun(steps: seq<Step>, b: Broker, now: int, cutoff: int)
    requires forall st :: st in steps ==> Possible(st) && NamesDesk(st)
    ensures var after := Reconciled(Run(map[], steps), PassOf(b, true, now, cutoff));
      && Splits(b.positions, VisiblePositionIds(after, "fast"), VisiblePositionIds(after, "smc"))
      && Splits(b.orders, VisibleOrderIds(after, "fast"), VisibleOrderIds(after, "smc"))
  {
    RunKeepsWellFormed(map[], steps);
    RunKeepsOwned(map[], steps);
    OwnedPayloadsSplit(Run(map[], steps), b, now, cutoff);
  }

  /** A foreign position the broker reports goes to the fast desk and to it alone. */
  lemma ForeignPositionIsShownToFast(s: Store, b: Broker, now: int, cutoff: int, t: int)
    requires WellFormed(s) && t in b.positions && t > 0 && Position(t) !in s && Order(t) !in s
    ensures var after := Reconciled(s, PassOf(b, true, now, cutoff));
      t in VisiblePositionIds(after, "fast") && t !in VisiblePositionIds(after, "smc")
  {
    var p := PassOf(b, true, now, cutoff);
    ReconciledKeepsWellFormed(s, p);
    AdoptedIsFast(s, p, Position(t));
    OwnerDecidesView(Reconciled(s, p), t);
  }

  /** A position handed over is shown to its new desk and no longer to the other. */
  lemma MovedPositionChangesView(s: Store, target: string, reevaluate: bool, now: int, t: int)
    requires WellFormed(s) && Position(t) in ActiveUids(s) && OwnerOf(target) != Unassigned
    requires !(s[Position(t)].owner == Smc && OwnerOf(target) == Fast)
    ensures var after := After(s, ReassignStep(target, Some(t), None, reevaluate, now));
      && (t in VisiblePositionIds(after, "fast") <==> OwnerOf(target) == Fast)
      && (t in VisiblePositionIds(after, "smc") <==> OwnerOf(target) == Smc)
  {
    var st := ReassignStep(target, Some(t), None, reevaluate, now);
    MoveGives(s, target, Some(t), None, reevaluate, now, Position(t));
    StepKeepsWellFormed(s, st);
    OwnerDecidesView(After(s, st), t);
  }

  /** Every row is handed out under exactly one of the three names. */
  lemma EveryRowHasOneName(s: Store, u: Uid)
    requires WellFormed(s) && u in s
    ensures OpenForDesk("fast", s[u]) <==> s[u].owner == Fast
    ensures OpenForDesk("smc", s[u]) <==> s[u].owner == Smc
    ensures OpenForDesk("unassigned", s[u]) <==> s[u].owner == Unassigned
  {
    assert Coherent(s[u]);
  }
}
