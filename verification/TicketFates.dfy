/** What becomes of a single ticket: through a pass, a registration, a reassignment, and a run. */
module TicketFates {
  import opened Wrappers
  import opened Ownership
  import opened OwnershipRegistry
  import opened OwnershipLaws

  // ---- Through a pass ----

  /** A ticket nobody has a row for, position or order, becomes the fast desk's: active, inherited
      and written now. */
  lemma AdoptedIsFast(s: Store, p: Pass, u: Uid)
    requires p.adopt && Reported(p, u) && u !in s && (u.kind == PositionOp ==> Order(u.ticket) !in s)
    ensures u in Reconciled(s, p)
    ensures var r := Reconciled(s, p)[u];
      && r.owner == Fast && r.status == InheritedFast && r.lifecycle == Active
      && !r.reevaluate && r.outcome == NoOutcome && r.updatedAt == p.now
  {
    ReconciledAt(s, p, u);
  }

  /** Every row a pass leaves has the owner it had, or that of the order it filled from, or, if it
      is new, the fast desk. */
  lemma OwnersAfterPass(s: Store, p: Pass, u: Uid)
    requires u in Reconciled(s, p)
    ensures var r := Reconciled(s, p)[u];
      && (u in s ==> r.owner == s[u].owner && r.status == s[u].status)
      && (u !in s && u.kind == PositionOp && Order(u.ticket) in s ==>
            r.owner == s[Order(u.ticket)].owner && r.status == s[Order(u.ticket)].status)
      && (u !in s && (u.kind == PositionOp ==> Order(u.ticket) !in s) ==> r.owner == Fast && r.status == InheritedFast)
  {
    ReconciledAt(s, p, u);
  }

  /** A reported row is active again and otherwise as it was. */
  lemma ReportedRowIsKept(s: Store, p: Pass, u: Uid)
    requires u in s && Reported(p, u)
    ensures u in Reconciled(s, p) && Reconciled(s, p)[u] == s[u].(lifecycle := Active, updatedAt := p.now)
  {
    ReconciledAt(s, p, u);
  }

  /** A row that was terminal before and is not reported is left alone for as long as it is kept. */
  lemma TerminalRowIsLeft(s: Store, p: Pass, u: Uid)
    requires u in s && !Reported(p, u) && s[u].lifecycle != Active && u in Reconciled(s, p)
    ensures Reconciled(s, p)[u] == s[u]
  {
    ReconciledAt(s, p, u);
  }

  /** A position that is gone ends closed, with nothing else about it changed. */
  lemma MissingPositionCloses(s: Store, p: Pass, t: int)
    requires WellFormed(s) && Position(t) in s && s[Position(t)].lifecycle == Active
    requires t !in p.positions && p.cutoff <= p.now
    ensures Position(t) in Reconciled(s, p)
    ensures Reconciled(s, p)[Position(t)] == s[Position(t)].(lifecycle := Closed, updatedAt := p.now)
  {
    ReconciledAt(s, p, Position(t));
  }

  /** A cancel state somewhere in the order history. */
  predicate HasCancelEvidence(b: Broker, t: int) {
    t > 0 && exists h :: h in b.history && h.orderId == t && h.state in {2, 5, 6}
  }

  /** The note on a pending order that is gone: filled if there is fill evidence, else cancelled if
      there is cancel evidence, else whatever it was. */
  lemma MissingOrderNote(s: Store, b: Broker, adopt: bool, now: int, cutoff: int, t: int)
    requires WellFormed(s) && Order(t) in s && s[Order(t)].lifecycle == Active
    requires t !in b.orders && cutoff <= now
    ensures var after := Reconciled(s, PassOf(b, adopt, now, cutoff));
      && Order(t) in after && after[Order(t)].owner == s[Order(t)].owner && after[Order(t)].updatedAt == now
      && after[Order(t)].outcome ==
           (if HasFillEvidence(b, t) then OutcomeFilled
            else if HasCancelEvidence(b, t) then OutcomeCancelled else s[Order(t)].outcome)
  {
    var p := PassOf(b, adopt, now, cutoff);
    ReconciledAt(s, p, Order(t));
    MissingOrderOutcome(s, b, adopt, now, cutoff, t);
    EvidenceIs(b, t);
  }

  lemma EvidenceIs(b: Broker, t: int)
    ensures t in FilledIds(b) <==> HasFillEvidence(b, t)
    ensures t in CancelledIds(b) <==> HasCancelEvidence(b, t) && !HasFillEvidence(b, t)
  {
  }

  /** Nothing written within the retention is forgotten, whatever the broker reports. */
  lemma RetentionIsKept(s: Store, b: Broker, adopt: bool, now: int, later: int, days: nat, u: Uid)
    requires u in s && now <= later && s[u].updatedAt <= now && s[u].updatedAt >= later - days * 86400
    ensures u in Reconciled(s, PassOf(b, adopt, now, Cutoff(later, days)))
  {
    RowForgottenIff(s, PassOf(b, adopt, now, Cutoff(later, days)), u);
  }

  // ---- What the counters of a pass say ----

  /** The rows that were active before the pass and are in the given state after it. */
  ghost function Became(s: Store, after: Store, l: Lifecycle): set<Uid> {
    set u | u in s && u in after && s[u].lifecycle == Active && after[u].lifecycle == l
  }

  /** The rows of a kind the pass has made out of nothing: no row of the ticket stood for it. */
  ghost function Made(s: Store, after: Store, k: Kind): set<Uid> {
    set u | u in after && u !in s && u.kind == k && (k == PositionOp ==> Order(u.ticket) !in s)
  }

  lemma MadeIs(s: Store, p: Pass, k: Kind)
    ensures Made(s, Reconciled(s, p), k) == AdoptedUids(s, p, k)
  {
    forall u ensures u in Made(s, Reconciled(s, p), k) <==> u in AdoptedUids(s, p, k) {
      ReconciledAt(s, p, u);
      AdoptedMember(s, p, k, u);
    }
  }

  lemma BecameIs(s: Store, p: Pass, l: Lifecycle)
    requires p.cutoff <= p.now && l != Active
    ensures Became(s, Reconciled(s, p), l) == SettledUids(s, p, l)
  {
    forall u ensures u in Became(s, Reconciled(s, p), l) <==> u in SettledUids(s, p, l) { ReconciledAt(s, p, u); }
  }

  lemma GoneIs(s: Store, p: Pass)
    ensures s.Keys - Reconciled(s, p).Keys == ExpiredUids(s, p)
  {
    forall u ensures u in s.Keys - Reconciled(s, p).Keys <==> u in ExpiredUids(s, p) { ReconciledAt(s, p, u); }
  }

  /** The counters are the difference between the two tables: how many rows were made of each
      kind, how many active ones ended in each state, how many are gone, how many are open. */
  lemma CountersAreTheDifference(s: Store, p: Pass)
    requires p.cutoff <= p.now
    ensures var c, after := Counted(s, p), Reconciled(s, p);
      && c.adoptedPositions == |Made(s, after, PositionOp)| && c.adoptedOrders == |Made(s, after, OrderOp)|
      && c.closed == |Became(s, after, Closed)| && c.filled == |Became(s, after, Filled)|
      && c.cancelled == |Became(s, after, Cancelled)|
      && c.purged == |s.Keys - after.Keys|
      && c.openCount == |set u | u in after && after[u].lifecycle == Active|
  {
    MadeIs(s, p, PositionOp);
    MadeIs(s, p, OrderOp);
    BecameIs(s, p, Closed);
    BecameIs(s, p, Filled);
    BecameIs(s, p, Cancelled);
    GoneIs(s, p);
  }

  // ---- Through a registration and a reassignment ----

  /** A registered ticket belongs to the desk that is named and is active; no other row changes. */
  lemma RegistrationGives(s: Store, k: Kind, t: int, owner: string, now: int)
    ensures var after, u := After(s, RegisterStep(k, t, owner, now)), Uid(k, t);
      && u in after && after[u].owner == OwnerOf(owner) && after[u].lifecycle == Active && after[u].updatedAt == now
      && Coherent(after[u]) && after[u].status != InheritedFast
      && forall v :: v != u ==> Get(after, v) == Get(s, v)
  {
  }

  /** The row a reassignment asks for: by position ticket if one is given, else by order ticket. */
  predicate Asks(pos: Option<int>, ord: Option<int>, u: Uid) {
    if u.kind == PositionOp then pos == Some(u.ticket) else pos == None && ord == Some(u.ticket)
  }

  /** A reassignment succeeds exactly if it names a desk and a row there is, and would not take
      the row from smc to fast. */
  lemma MoveSucceedsIff(s: Store, target: string, pos: Option<int>, ord: Option<int>, reevaluate: bool, now: int, u: Uid)
    requires Asks(pos, ord, u)
    ensures Reassigned(s, target, pos, ord, reevaluate, now).Ok? <==>
      OwnerOf(target) != Unassigned && u in s && !(s[u].owner == Smc && OwnerOf(target) == Fast)
  {
  }

  /** Then the row belongs to that desk, with its lifecycle and tickets as they were; no other row
      changes. A reassignment that fails changes nothing. */
  lemma MoveGives(s: Store, target: string, pos: Option<int>, ord: Option<int>, reevaluate: bool, now: int, u: Uid)
    requires WellFormed(s) && Asks(pos, ord, u)
    ensures var after := After(s, ReassignStep(target, pos, ord, reevaluate, now));
      && after.Keys == s.Keys && (forall v :: v in s && v != u ==> after[v] == s[v])
      && (if OwnerOf(target) != Unassigned && u in s && !(s[u].owner == Smc && OwnerOf(target) == Fast) then
            && after[u].owner == OwnerOf(target) && after[u].status != InheritedFast && Coherent(after[u])
            && after[u].lifecycle == s[u].lifecycle && after[u].outcome == s[u].outcome
            && after[u].reevaluate == reevaluate && after[u].updatedAt == now
          else after == s)
  {
  }

  // ---- Through a run ----

  /** No row of the table is without a desk. */
  ghost predicate AllOwned(s: Store) {
    forall u :: u in s ==> s[u].owner != Unassigned
  }

  /** The step registers a ticket for one of the desks, if it registers one. */
  predicate NamesDesk(st: Step) {
    st.RegisterStep? ==> OwnerOf(st.owner) != Unassigned
  }

  lemma PassKeepsOwned(s: Store, p: Pass)
    requires AllOwned(s)
    ensures AllOwned(Reconciled(s, p))
  {
    forall u | u in Reconciled(s, p) ensures Reconciled(s, p)[u].owner != Unassigned { OwnersAfterPass(s, p, u); }
  }

  lemma StepKeepsOwned(s: Store, st: Step)
    requires AllOwned(s) && NamesDesk(st)
    ensures AllOwned(After(s, st))
  {
    if st.ReconcileStep? { PassKeepsOwned(s, st.p); }
  }

  /** Every ticket has a desk after any run in which registrations name one. */
  lemma {:induction false} RunKeepsOwned(s: Store, steps: seq<Step>)
    requires AllOwned(s) && forall st :: st in steps ==> NamesDesk(st)
    ensures AllOwned(Run(s, steps))
    decreases |steps|
  {
    if steps != [] {
      StepKeepsOwned(s, steps[0]);
      RunKeepsOwned(After(s, steps[0]), steps[1..]);
    }
  }
}
