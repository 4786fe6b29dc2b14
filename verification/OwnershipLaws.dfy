/** What the reconcile pass guarantees about the whole table, and about whole runs. */
module OwnershipLaws {
  import opened Wrappers
  import opened Ownership
  import opened OwnershipRegistry
  import PySeq

  // ---- One pass brings the table in step with the broker ----

  lemma ActiveAfter(s: Store, p: Pass, u: Uid)
    ensures u in ActiveUids(Reconciled(s, p)) <==> Reported(p, u) && TakenRow(s, p, u).Some?
  {
    ReconciledAt(s, p, u);
  }

  /** Whatever the table held, afterwards its active tickets are the broker's, save foreign
      tickets when adoption is off. */
  lemma PassStabilises(s: Store, p: Pass)
    ensures ActiveTickets(Reconciled(s, p), PositionOp) ==
      set t | t in p.positions && (p.adopt || Position(t) in s || Order(t) in s)
    ensures ActiveTickets(Reconciled(s, p), OrderOp) == set t | t in p.orders && (p.adopt || Order(t) in s)
    ensures p.adopt ==>
      && ActiveTickets(Reconciled(s, p), PositionOp) == p.positions
      && ActiveTickets(Reconciled(s, p), OrderOp) == p.orders
      && Counted(s, p).openCount == |p.positions| + |p.orders|
  {
    var positions := set t | t in p.positions && (p.adopt || Position(t) in s || Order(t) in s);
    var orders := set t | t in p.orders && (p.adopt || Order(t) in s);
    forall t ensures t in ActiveTickets(Reconciled(s, p), PositionOp) <==> t in positions {
      TicketAfter(s, p, PositionOp, t);
    }
    forall t ensures t in ActiveTickets(Reconciled(s, p), OrderOp) <==> t in orders { TicketAfter(s, p, OrderOp, t); }
    if p.adopt {
      assert positions == p.positions && orders == p.orders;
    }
    ActiveSplit(Reconciled(s, p));
  }

  lemma TicketAfter(s: Store, p: Pass, k: Kind, t: int)
    ensures t in ActiveTickets(Reconciled(s, p), k) <==>
      Reported(p, Uid(k, t)) && (p.adopt || Uid(k, t) in s || (k == PositionOp && Order(t) in s))
  {
    var after := Reconciled(s, p);
    ActiveAfter(s, p, Uid(k, t));
    assert t in ActiveTickets(after, k) <==> Uid(k, t) in ActiveUids(after);
  }

  lemma ActiveSplit(s: Store)
    ensures |ActiveUids(s)| == |ActiveTickets(s, PositionOp)| + |ActiveTickets(s, OrderOp)|
  {
    var a, b := set u | u in ActiveUids(s) && u.kind == PositionOp, set u | u in ActiveUids(s) && u.kind == OrderOp;
    assert ActiveUids(s) == a + b;
    TicketCount(a, PositionOp);
    TicketCount(b, OrderOp);
    assert ActiveTickets(s, PositionOp) == set u | u in a :: u.ticket;
    assert ActiveTickets(s, OrderOp) == set u | u in b :: u.ticket;
  }

  lemma {:induction false} TicketCount(us: set<Uid>, k: Kind)
    requires forall u :: u in us ==> u.kind == k
    ensures |us| == |set u | u in us :: u.ticket|
    decreases |us|
  {
    if us != {} {
      var v :| v in us;
      TicketCount(us - {v}, k);
      assert (set u | u in us :: u.ticket) == (set u | u in us - {v} :: u.ticket) + {v.ticket};
      forall u | u in us - {v} ensures u.ticket != v.ticket { assert u == Uid(k, u.ticket) && v == Uid(k, v.ticket); }
    }
  }

  /** The active rows a pass leaves as they are. */
  function KeptUids(s: Store, p: Pass): set<Uid> {
    set u | u in s && Reported(p, u) && s[u].lifecycle == Active
  }

  lemma ActiveAfterIs(s: Store, p: Pass)
    ensures ActiveUids(Reconciled(s, p)) ==
      KeptUids(s, p) + ReactivatedUids(s, p) + PromotedUids(s, p)
      + AdoptedUids(s, p, PositionOp) + AdoptedUids(s, p, OrderOp)
  {
    forall u ensures u in ActiveUids(Reconciled(s, p)) <==>
      u in KeptUids(s, p) + ReactivatedUids(s, p) + PromotedUids(s, p)
           + AdoptedUids(s, p, PositionOp) + AdoptedUids(s, p, OrderOp)
    {
      ActiveAfter(s, p, u);
      AdoptedMember(s, p, PositionOp, u);
      AdoptedMember(s, p, OrderOp, u);
      assert Reported(p, u) ==> u in Universe(s, p);
    }
  }

  lemma ActiveBeforeIs(s: Store, p: Pass)
    ensures |ActiveUids(s)| == |KeptUids(s, p)|
      + |SettledUids(s, p, Closed)| + |SettledUids(s, p, Filled)| + |SettledUids(s, p, Cancelled)|
  {
    ActiveBeforeSplits(s, p);
    FourSizes(KeptUids(s, p), SettledUids(s, p, Closed), SettledUids(s, p, Filled), SettledUids(s, p, Cancelled));
  }

  lemma ActiveBeforeSplits(s: Store, p: Pass)
    ensures ActiveUids(s) ==
      KeptUids(s, p) + SettledUids(s, p, Closed) + SettledUids(s, p, Filled) + SettledUids(s, p, Cancelled)
    ensures forall l :: KeptUids(s, p) !! SettledUids(s, p, l)
    ensures forall l, m :: l != m ==> SettledUids(s, p, l) !! SettledUids(s, p, m)
  {
  }

  lemma FourSizes<T>(a: set<T>, b: set<T>, c: set<T>, d: set<T>)
    requires a !! b && (a + b) !! c && (a + b + c) !! d
    ensures |a + b + c + d| == |a| + |b| + |c| + |d|
  {
  }

  lemma AdoptedApart(s: Store, p: Pass)
    ensures AdoptedUids(s, p, PositionOp) !! AdoptedUids(s, p, OrderOp)
    ensures forall k :: AdoptedUids(s, p, k) !! s.Keys && AdoptedUids(s, p, k) !! PromotedUids(s, p)
    ensures PromotedUids(s, p) !! s.Keys && KeptUids(s, p) + ReactivatedUids(s, p) <= s.Keys
    ensures KeptUids(s, p) !! ReactivatedUids(s, p)
  {
  }

  /** Every change of the open count is an adoption, a promotion, a reactivation or a settlement. */
  lemma OpenCountIsConserved(s: Store, p: Pass)
    ensures Counted(s, p).openCount ==
      |ActiveUids(s)| + Counted(s, p).adoptedPositions + Counted(s, p).adoptedOrders
      + |PromotedUids(s, p)| + |ReactivatedUids(s, p)|
      - Counted(s, p).closed - Counted(s, p).filled - Counted(s, p).cancelled
  {
    ActiveAfterIs(s, p);
    ActiveBeforeIs(s, p);
    AdoptedApart(s, p);
    UnionSize(KeptUids(s, p), ReactivatedUids(s, p), PromotedUids(s, p),
              AdoptedUids(s, p, PositionOp), AdoptedUids(s, p, OrderOp));
  }

  lemma UnionSize<T>(a: set<T>, b: set<T>, c: set<T>, d: set<T>, e: set<T>)
    requires a !! b && (a + b) !! c && (a + b + c) !! d && (a + b + c + d) !! e
    ensures |a + b + c + d + e| == |a| + |b| + |c| + |d| + |e|
  {
  }

  // ---- Passing again, and passing over reordered lists, changes nothing ----

  /** With the clock held, a second pass over the same lists finds nothing to do. */
  lemma PassIsIdempotent(s: Store, p: Pass)
    ensures Reconciled(Reconciled(s, p), p) == Reconciled(s, p)
    ensures Counted(Reconciled(s, p), p) == Counters(0, 0, 0, 0, 0, 0, Counted(s, p).openCount)
  {
    var s1 := Reconciled(s, p);
    forall u ensures Get(Reconciled(s1, p), u) == Get(s1, u) {
      RowIsStable(s, p, u);
      ReconciledAt(s1, p, u);
    }
    StoreExtensional(Reconciled(s1, p), s1);
    NothingToCount(s, p);
  }

  lemma NothingToCount(s: Store, p: Pass)
    ensures forall k :: AdoptedUids(Reconciled(s, p), p, k) == {}
    ensures forall l :: SettledUids(Reconciled(s, p), p, l) == {}
    ensures ExpiredUids(Reconciled(s, p), p) == {}
  {
    var s1 := Reconciled(s, p);
    forall u ensures u !in ExpiredUids(s1, p) && forall l :: u !in SettledUids(s1, p, l) { RowIsStable(s, p, u); }
    forall u, k ensures u !in AdoptedUids(s1, p, k) { RowIsStable(s, p, u); }
  }

  /** What a pass leaves of a row is what the next pass would leave of it. */
  lemma RowIsStable(s: Store, p: Pass, u: Uid)
    ensures var s1 := Reconciled(s, p);
      && SettledRow(s1, p, u) == Get(s1, u) == ReconciledRow(s1, p, u)
      && (u in s1 ==> !Expired(s1[u], p.cutoff) && (s1[u].lifecycle == Active ==> Reported(p, u)))
      && (Reported(p, u) && p.adopt ==> u in s1)
  {
    ReconciledAt(s, p, u);
    ReconciledAt(s, p, Order(u.ticket));
  }

  /** Only which ids the lists hold matters: neither their order nor repetitions do. */
  lemma PassIgnoresListOrder(a: Broker, b: Broker, adopt: bool, now: int, cutoff: int)
    requires PySeq.Elements(a.positions) == PySeq.Elements(b.positions)
    requires PySeq.Elements(a.orders) == PySeq.Elements(b.orders)
    requires PySeq.Elements(a.deals) == PySeq.Elements(b.deals)
    requires PySeq.Elements(a.history) == PySeq.Elements(b.history)
    ensures PassOf(a, adopt, now, cutoff) == PassOf(b, adopt, now, cutoff)
  {
    SameIds(a.positions, b.positions);
    SameIds(a.orders, b.orders);
    SameIds(a.deals, b.deals);
    assert forall h :: h in a.history <==> h in PySeq.Elements(a.history);
    assert forall h :: h in b.history <==> h in PySeq.Elements(b.history);
  }

  lemma SameIds(a: seq<int>, b: seq<int>)
    requires PySeq.Elements(a) == PySeq.Elements(b)
    ensures PositiveIds(a) == PositiveIds(b)
  {
    assert forall t :: t in a <==> t in PySeq.Elements(a);
    assert forall t :: t in b <==> t in PySeq.Elements(b);
  }

  /** Evidence that an order was executed: a deal, or a filled state, anywhere in the history. */
  predicate HasFillEvidence(b: Broker, t: int) {
    t > 0 && (t in b.deals || exists h :: h in b.history && h.orderId == t && h.state in {3, 4})
  }

  /** A pending order that is gone ends filled exactly when there is fill evidence, whatever
      cancel evidence there is and wherever either stands. */
  lemma MissingOrderOutcome(s: Store, b: Broker, adopt: bool, now: int, cutoff: int, t: int)
    requires Order(t) in s && s[Order(t)].lifecycle == Active && s[Order(t)].uid == Order(t)
    requires t !in b.orders && t > 0 && cutoff <= now
    ensures var r := ReconciledRow(s, PassOf(b, adopt, now, cutoff), Order(t));
      r.Some? && r.value.lifecycle == (if HasFillEvidence(b, t) then Filled else Cancelled)
  {
  }

  /** A pass forgets a row exactly when the broker no longer reports its ticket and it was last
      written before the deadline, settling included; nothing reported or recent is lost. */
  lemma RowForgottenIff(s: Store, p: Pass, u: Uid)
    requires u in s
    ensures u !in Reconciled(s, p) <==>
      !Reported(p, u) && (if s[u].lifecycle == Active then p.now else s[u].updatedAt) < p.cutoff
  {
    ReconciledAt(s, p, u);
  }

  // ---- Ownership never flows from smc to fast ----

  /** A row held by smc is held by smc for as long as the pass keeps it. */
  lemma SmcRowStaysSmc(s: Store, p: Pass, u: Uid)
    requires u in s && s[u].owner == Smc && u in Reconciled(s, p)
    ensures Reconciled(s, p)[u].owner == Smc
  {
    ReconciledAt(s, p, u);
  }

  /** No row of ticket t belongs to another desk than smc. */
  predicate SmcOnly(s: Store, t: int) {
    && (Position(t) in s ==> s[Position(t)].owner == Smc)
    && (Order(t) in s ==> s[Order(t)].owner == Smc)
  }

  /** The pass would adopt ticket t as foreign: it is reported and has no row to be found by.
      The order loop, unlike the position loop, does not look for the other kind of row. */
  predicate AdoptsTicket(s: Store, p: Pass, t: int) {
    p.adopt && Order(t) !in s && (t in p.orders || (t in p.positions && Position(t) !in s))
  }

  /** An smc ticket stays smc through a pass, fills included, exactly when the pass does not
      adopt it. */
  lemma TicketStaysSmcIff(s: Store, p: Pass, t: int)
    requires SmcOnly(s, t)
    ensures SmcOnly(Reconciled(s, p), t) <==> !AdoptsTicket(s, p, t)
  {
    ReconciledAt(s, p, Position(t));
    ReconciledAt(s, p, Order(t));
  }

  /** The case in which it does not: an smc position with no order row, whose ticket the broker
      also lists as a pending order, gets an order row held by fast. */
  lemma OrderlessPositionIsAdoptedByFast(t: int, now: int)
    requires t > 0
    ensures var s: Store := map[Position(t) := Fresh(Position(t), "smc", now)];
      var after := Reconciled(s, Pass(true, {t}, {t}, {}, {}, now, now));
      WellFormed(s) && SmcOnly(s, t) && Order(t) in after && after[Order(t)].owner == Fast
  {
    DeskNames();
    var s: Store := map[Position(t) := Fresh(Position(t), "smc", now)];
    ReconciledAt(s, Pass(true, {t}, {t}, {}, {}, now, now), Order(t));
  }

  // ---- Runs ----

  /** Anything that may happen to the table between two looks at it. */
  datatype Step =
    | ReconcileStep(p: Pass)
    | ReassignStep(target: string, positionId: Option<int>, orderId: Option<int>, reevaluate: bool, now: int)
    | RegisterStep(kind: Kind, ticket: int, owner: string, now: int)

  ghost predicate Possible(st: Step) {
    match st
    case ReconcileStep(p) => PositivePass(p)
    case ReassignStep(_, _, _, _, _) => true
    case RegisterStep(_, t, _, _) => t > 0
  }

  function After(s: Store, st: Step): Store {
    match st
    case ReconcileStep(p) => Reconciled(s, p)
    case ReassignStep(target, pos, ord, reevaluate, now) =>
      var r := Reassigned(s, target, pos, ord, reevaluate, now);
      if r.Ok? then s[r.value.uid := r.value] else s
    case RegisterStep(k, t, owner, now) => s[Uid(k, t) := Fresh(Uid(k, t), owner, now)]
  }

  function Run(s: Store, steps: seq<Step>): Store
    decreases |steps|
  {
    if steps == [] then s else Run(After(s, steps[0]), steps[1..])
  }

  lemma StepKeepsWellFormed(s: Store, st: Step)
    requires WellFormed(s) && Possible(st)
    ensures WellFormed(After(s, st))
  {
    if st.ReconcileStep? { ReconciledKeepsWellFormed(s, st.p); }
  }

  /** Tickets, shapes, and owner against status agree in every reachable table. */
  lemma {:induction false} RunKeepsWellFormed(s: Store, steps: seq<Step>)
    requires WellFormed(s) && forall st :: st in steps ==> Possible(st)
    ensures WellFormed(Run(s, steps))
    decreases |steps|
  {
    if steps != [] {
      StepKeepsWellFormed(s, steps[0]);
      RunKeepsWellFormed(After(s, steps[0]), steps[1..]);
    }
  }

  /** The step neither adopts ticket t nor registers it for another desk. */
  predicate LeavesToSmc(s: Store, st: Step, t: int) {
    match st
    case ReconcileStep(p) => !AdoptsTicket(s, p, t)
    case ReassignStep(_, _, _, _, _) => true
    case RegisterStep(_, u, owner, _) => u == t ==> OwnerOf(owner) == Smc
  }

  predicate RunLeavesToSmc(s: Store, steps: seq<Step>, t: int)
    decreases |steps|
  {
    steps != [] ==> LeavesToSmc(s, steps[0], t) && RunLeavesToSmc(After(s, steps[0]), steps[1..], t)
  }

  lemma StepStaysSmcIff(s: Store, st: Step, t: int)
    requires WellFormed(s) && Possible(st) && SmcOnly(s, t)
    ensures SmcOnly(After(s, st), t) <==> LeavesToSmc(s, st, t)
  {
    match st
    case ReconcileStep(p) => TicketStaysSmcIff(s, p, t);
    case ReassignStep(target, pos, ord, reevaluate, now) =>
    case RegisterStep(k, u, owner, now) =>
  }

  /** Ticket t belongs to smc alone before and after every step of the run. */
  predicate AlwaysSmc(s: Store, steps: seq<Step>, t: int)
    decreases |steps|
  {
    SmcOnly(s, t) && (steps != [] ==> AlwaysSmc(After(s, steps[0]), steps[1..], t))
  }

  /** In a run of passes, reassignments and registrations an smc ticket is never fast, not when
      its order fills, not while it is missing, not by reassignment, exactly if no pass adopts it
      and no registration gives it away. */
  lemma {:induction false} RunStaysSmcIff(s: Store, steps: seq<Step>, t: int)
    requires WellFormed(s) && forall st :: st in steps ==> Possible(st)
    requires SmcOnly(s, t)
    ensures AlwaysSmc(s, steps, t) <==> RunLeavesToSmc(s, steps, t)
    decreases |steps|
  {
    if steps != [] {
      StepStaysSmcIff(s, steps[0], t);
      StepKeepsWellFormed(s, steps[0]);
      if SmcOnly(After(s, steps[0]), t) { RunStaysSmcIff(After(s, steps[0]), steps[1..], t); }
    }
  }

  /** A filled order carries its owner to the position it becomes. */
  lemma FilledOrderKeepsOwner(s: Store, p: Pass, t: int)
    requires Order(t) in s && Position(t) !in s && t in p.positions
    ensures Position(t) in Reconciled(s, p)
    ensures Reconciled(s, p)[Position(t)].owner == s[Order(t)].owner
    ensures Reconciled(s, p)[Position(t)].status == s[Order(t)].status
  {
    ReconciledAt(s, p, Position(t));
  }

  /** The step happens at time T or later, and its purge, if any, spares rows written since T. */
  predicate Since(st: Step, T: int) {
    match st
    case ReconcileStep(p) => p.now >= T && p.cutoff <= T
    case ReassignStep(_, _, _, _, now) => now >= T
    case RegisterStep(_, _, _, now) => now >= T
  }

  /** The step does not register ticket t for another desk. */
  predicate RegistersForSmc(st: Step, t: int) {
    st.RegisterStep? && st.ticket == t ==> OwnerOf(st.owner) == Smc
  }

  /** The step does not adopt the pending orders of a list that holds ticket t. */
  predicate ListsNoOrder(st: Step, t: int) {
    st.ReconcileStep? && st.p.adopt ==> t !in st.p.orders
  }

  ghost predicate Retained(s: Store, u: Uid, T: int) {
    u in s && s[u].updatedAt >= T
  }

  lemma StepKeepsRow(s: Store, st: Step, u: Uid, T: int)
    requires WellFormed(s) && Since(st, T) && Retained(s, u, T)
    ensures Retained(After(s, st), u, T)
  {
    if st.ReconcileStep? {
      ReconciledAt(s, st.p, u);
    }
  }

  /** While its order row is within the retention, an smc ticket stays smc, whatever the broker
      reports: a run that purges nothing written since T, from a row written at T or later. */
  lemma {:induction false} RetainedOrderStaysSmc(s: Store, steps: seq<Step>, t: int, T: int)
    requires WellFormed(s) && forall st :: st in steps ==> Possible(st) && Since(st, T) && RegistersForSmc(st, t)
    requires SmcOnly(s, t) && Retained(s, Order(t), T)
    ensures AlwaysSmc(s, steps, t) && Order(t) in Run(s, steps)
    decreases |steps|
  {
    if steps != [] {
      assert steps[0] in steps;
      StepStaysSmcIff(s, steps[0], t);
      StepKeepsWellFormed(s, steps[0]);
      StepKeepsRow(s, steps[0], Order(t), T);
      RetainedOrderStaysSmc(After(s, steps[0]), steps[1..], t, T);
    }
  }

  /** So does a ticket with a position row, such as a market entry's, as long as no pass that
      adopts finds the ticket among the pending orders too. */
  lemma {:induction false} RetainedPositionStaysSmc(s: Store, steps: seq<Step>, t: int, T: int)
    requires WellFormed(s) && forall st :: st in steps ==> Possible(st) && Since(st, T) && RegistersForSmc(st, t)
    requires forall st :: st in steps ==> ListsNoOrder(st, t)
    requires SmcOnly(s, t) && Retained(s, Position(t), T)
    ensures AlwaysSmc(s, steps, t) && Position(t) in Run(s, steps)
    decreases |steps|
  {
    if steps != [] {
      assert steps[0] in steps;
      StepStaysSmcIff(s, steps[0], t);
      StepKeepsWellFormed(s, steps[0]);
      StepKeepsRow(s, steps[0], Position(t), T);
      RetainedPositionStaysSmc(After(s, steps[0]), steps[1..], t, T);
    }
  }
}
