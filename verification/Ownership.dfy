/** Who owns which broker ticket: rows, the table that holds them, and one reconcile pass. */
module Ownership {
  import opened Wrappers
  import Symbols

  datatype Kind = PositionOp | OrderOp

  datatype Owner = Fast | Smc | Unassigned

  datatype Status = FastOwned | SmcOwned | InheritedFast | NoOwner

  datatype Lifecycle = Active | Closed | Filled | Cancelled

  /** The `terminal_outcome` note in a row's metadata. */
  datatype Outcome = NoOutcome | OutcomeFilled | OutcomeCancelled

  /** The primary key: operation type and ticket, for one broker account. */
  datatype Uid = Uid(kind: Kind, ticket: int)

  datatype Row = Row(
    uid: Uid,
    positionId: Option<int>,
    orderId: Option<int>,
    owner: Owner,
    status: Status,
    lifecycle: Lifecycle,
    reevaluate: bool,
    outcome: Outcome,
    updatedAt: int)

  type Store = map<Uid, Row>

  function Position(t: int): Uid { Uid(PositionOp, t) }

  function Order(t: int): Uid { Uid(OrderOp, t) }

  function Get(s: Store, u: Uid): Option<Row> {
    if u in s then Some(s[u]) else None
  }

  lemma StoreExtensional(a: Store, b: Store)
    requires forall u :: Get(a, u) == Get(b, u)
    ensures a == b
  {
    assert forall u :: u in a <==> Get(a, u).Some?;
    assert forall u :: u in b <==> Get(b, u).Some?;
    assert forall u :: u in a ==> Get(a, u).value == a[u] && Get(b, u).value == b[u];
  }

  /** A desk's name as every operation first reads it. */
  function DeskName(name: string): string {
    Symbols.Lower(Symbols.Strip(name))
  }

  function OwnerOf(name: string): Owner {
    if DeskName(name) == "fast" then Fast else if DeskName(name) == "smc" then Smc else Unassigned
  }

  lemma DeskNames()
    ensures DeskName("fast") == "fast" && DeskName("smc") == "smc"
    ensures OwnerOf("fast") == Fast && OwnerOf("smc") == Smc
  {
    PlainName("fast");
    PlainName("smc");
  }

  /** A desk is known by its name in any case and with space around it. */
  lemma DeskNameIs(name: string, other: string, c: char)
    requires Symbols.Upper(name) == Symbols.Upper(other) && Symbols.IsSpace(c)
    ensures OwnerOf(name) == OwnerOf(other) == OwnerOf([c] + name) == OwnerOf(name + [c])
  {
    Symbols.LowerIgnoresCase(name, other);
    Symbols.StripIgnoresSpace(name, c);
  }

  lemma PlainName(s: string)
    requires s != "" && !Symbols.IsSpace(s[0]) && !Symbols.IsSpace(s[|s| - 1])
    requires forall i :: 0 <= i < |s| ==> !('A' <= s[i] <= 'Z')
    ensures DeskName(s) == s
  {
    assert Symbols.StripLeft(s) == s && Symbols.StripRight(s) == s;
    LowerKeeps(s);
  }

  lemma {:induction false} LowerKeeps(s: string)
    requires forall i :: 0 <= i < |s| ==> !('A' <= s[i] <= 'Z')
    ensures Symbols.Lower(s) == s
  {
    if s != "" { LowerKeeps(s[1..]); }
  }

  function StatusOf(o: Owner): Status {
    match o
    case Fast => FastOwned
    case Smc => SmcOwned
    case Unassigned => NoOwner
  }

  /** Owner and status tell the same story. */
  predicate Coherent(r: Row) {
    && (r.owner == Fast <==> r.status in {FastOwned, InheritedFast})
    && (r.owner == Smc <==> r.status == SmcOwned)
  }

  predicate Terminal(r: Row) {
    r.lifecycle in {Closed, Filled, Cancelled}
  }

  /** A row carries exactly the ticket its key names. */
  predicate Shaped(r: Row) {
    && r.uid.ticket > 0
    && r.positionId == (if r.uid.kind == PositionOp then Some(r.uid.ticket) else None)
    && r.orderId == (if r.uid.kind == OrderOp then Some(r.uid.ticket) else None)
  }

  ghost predicate WellFormed(s: Store) {
    forall u :: u in s ==> s[u].uid == u && Shaped(s[u]) && Coherent(s[u])
  }

  /** The two unique indexes of the table: a write whose ticket another row holds is refused. */
  predicate Clashes(s: Store, r: Row) {
    exists u :: u in s && u != r.uid
      && ((r.positionId.Some? && s[u].positionId == r.positionId) || (r.orderId.Some? && s[u].orderId == r.orderId))
  }

  lemma ShapedNeverClashes(s: Store, r: Row)
    requires WellFormed(s) && Shaped(r)
    ensures !Clashes(s, r)
  {
  }

  // ---- What one pass does to one row ----

  function Refreshed(r: Row, now: int): Row {
    r.(lifecycle := Active, updatedAt := now)
  }

  /** A filled order's row, rewritten as the position that broke out of it. */
  function Promoted(r: Row, t: int, now: int): Row {
    r.(uid := Position(t), positionId := Some(t), orderId := None, lifecycle := Active, updatedAt := now)
  }

  function Adopted(u: Uid, now: int): Row {
    Row(u,
        if u.kind == PositionOp then Some(u.ticket) else None,
        if u.kind == OrderOp then Some(u.ticket) else None,
        Fast, InheritedFast, Active, false, NoOutcome, now)
  }

  /** What a pass is given: the broker's tickets, the history evidence and the clock. */
  datatype Pass = Pass(
    adopt: bool,
    positions: set<int>,
    orders: set<int>,
    filled: set<int>,
    cancelled: set<int>,
    now: int,
    cutoff: int)

  ghost predicate PositivePass(p: Pass) {
    forall t :: t in p.positions || t in p.orders ==> t > 0
  }

  /** An active row whose ticket the broker no longer reports. */
  function Settled(r: Row, p: Pass): Row {
    if r.uid.kind == PositionOp then r.(lifecycle := Closed, updatedAt := p.now)
    else if r.uid.ticket in p.filled then r.(lifecycle := Filled, outcome := OutcomeFilled, updatedAt := p.now)
    else r.(lifecycle := Cancelled,
            outcome := if r.uid.ticket in p.cancelled then OutcomeCancelled else r.outcome,
            updatedAt := p.now)
  }

  predicate Reported(p: Pass, u: Uid) {
    u.ticket in (if u.kind == PositionOp then p.positions else p.orders)
  }

  /** The row of u once the broker's tickets have been taken in. */
  function TakenRow(s: Store, p: Pass, u: Uid): Option<Row> {
    if !Reported(p, u) then Get(s, u)
    else if u in s then Some(Refreshed(s[u], p.now))
    else if u.kind == PositionOp && Order(u.ticket) in s then Some(Promoted(s[Order(u.ticket)], u.ticket, p.now))
    else if p.adopt then Some(Adopted(u, p.now))
    else None
  }

  /** The row of u once missing tickets have been settled too. */
  function SettledRow(s: Store, p: Pass, u: Uid): Option<Row> {
    var r := TakenRow(s, p, u);
    if r.Some? && r.value.lifecycle == Active && !Reported(p, u) then Some(Settled(r.value, p)) else r
  }

  predicate Expired(r: Row, cutoff: int) {
    Terminal(r) && r.updatedAt < cutoff
  }

  /** The row of u after the whole pass. */
  function ReconciledRow(s: Store, p: Pass, u: Uid): Option<Row> {
    var r := SettledRow(s, p, u);
    if r.Some? && Expired(r.value, p.cutoff) then None else r
  }

  function Universe(s: Store, p: Pass): set<Uid> {
    s.Keys + (set t | t in p.positions :: Position(t)) + (set t | t in p.orders :: Order(t))
  }

  /** The table after one pass. */
  function Reconciled(s: Store, p: Pass): Store {
    map u | u in Universe(s, p) && ReconciledRow(s, p, u).Some? :: ReconciledRow(s, p, u).value
  }

  lemma ReconciledAt(s: Store, p: Pass, u: Uid)
    ensures Get(Reconciled(s, p), u) == ReconciledRow(s, p, u)
  {
    assert Reported(p, u) ==> u in Universe(s, p);
  }

  // ---- What a pass counts ----

  function ActiveUids(s: Store): set<Uid> {
    set u | u in s && s[u].lifecycle == Active
  }

  function ActiveTickets(s: Store, k: Kind): set<int> {
    set u | u in s && s[u].lifecycle == Active && u.kind == k :: u.ticket
  }

  function AdoptedUids(s: Store, p: Pass, k: Kind): set<Uid> {
    set u | u in Universe(s, p) && u.kind == k && p.adopt && Reported(p, u) && u !in s
            && (k == PositionOp ==> Order(u.ticket) !in s)
  }

  function PromotedUids(s: Store, p: Pass): set<Uid> {
    set u | u in Universe(s, p) && u.kind == PositionOp && Reported(p, u) && u !in s && Order(u.ticket) in s
  }

  function ReactivatedUids(s: Store, p: Pass): set<Uid> {
    set u | u in s && Reported(p, u) && s[u].lifecycle != Active
  }

  /** The active rows a pass moves to the given terminal state. */
  function SettledUids(s: Store, p: Pass, l: Lifecycle): set<Uid> {
    set u | u in s && !Reported(p, u) && s[u].lifecycle == Active && Settled(s[u], p).lifecycle == l
  }

  function ExpiredUids(s: Store, p: Pass): set<Uid> {
    set u | u in s && SettledRow(s, p, u).Some? && Expired(SettledRow(s, p, u).value, p.cutoff)
  }

  datatype Counters = Counters(
    adoptedPositions: nat,
    adoptedOrders: nat,
    closed: nat,
    filled: nat,
    cancelled: nat,
    purged: nat,
    openCount: nat)

  function Counted(s: Store, p: Pass): Counters {
    Counters(
      |AdoptedUids(s, p, PositionOp)|,
      |AdoptedUids(s, p, OrderOp)|,
      |SettledUids(s, p, Closed)|,
      |SettledUids(s, p, Filled)|,
      |SettledUids(s, p, Cancelled)|,
      |ExpiredUids(s, p)|,
      |ActiveUids(Reconciled(s, p))|)
  }
}
