/** The ownership registry: registration, reassignment and the reconcile pass over its table. */
module OwnershipRegistry {
  import opened Wrappers
  import opened Ownership
  import PySeq

  /** An entry of the broker's order history; a missing id or state reads as 0. */
  datatype HistoryOrder = HistoryOrder(orderId: int, state: int)

  /** The four lists of one account refresh, as ticket ids; a missing or unreadable id is 0. */
  datatype Broker = Broker(positions: seq<int>, orders: seq<int>, deals: seq<int>, history: seq<HistoryOrder>)

  const FILLED_STATES: set<int> := {3, 4}
  const CANCELLED_STATES: set<int> := {2, 5, 6}

  function PositiveIds(ids: seq<int>): set<int> {
    set t | t in ids && t > 0
  }

  function IdsInState(history: seq<HistoryOrder>, states: set<int>): set<int> {
    set h | h in history && h.orderId > 0 && h.state in states :: h.orderId
  }

  function FilledIds(b: Broker): set<int> {
    PositiveIds(b.deals) + IdsInState(b.history, FILLED_STATES)
  }

  function CancelledIds(b: Broker): set<int> {
    IdsInState(b.history, CANCELLED_STATES) - FilledIds(b)
  }

  /** The purge deadline: the clock read at the end of the pass, less the retention. */
  function Cutoff(later: int, retentionDays: int): int {
    later - 86400 * (if retentionDays > 0 then retentionDays else 0)
  }

  function PassOf(b: Broker, adopt: bool, now: int, cutoff: int): Pass {
    Pass(adopt, PositiveIds(b.positions), PositiveIds(b.orders), FilledIds(b), CancelledIds(b), now, cutoff)
  }

  // ---- Taking tickets in one at a time equals taking them all in at once ----

  function Only(p: Pass, positions: set<int>, orders: set<int>): Pass {
    p.(positions := positions, orders := orders)
  }

  ghost predicate TakenAt(s: Store, s0: Store, p: Pass, u: Uid) {
    Get(s, u) == TakenRow(s0, p, u)
  }

  ghost predicate IsTaken(s: Store, s0: Store, p: Pass) {
    forall u :: TakenAt(s, s0, p, u)
  }

  lemma TakenCompose(s0: Store, s1: Store, s2: Store, p: Pass, q: Pass)
    requires IsTaken(s1, s0, p) && IsTaken(s2, s1, q)
    requires p.orders == {} || q.positions == {}
    requires q.adopt == p.adopt && q.now == p.now
    ensures IsTaken(s2, s0, Only(p, p.positions + q.positions, p.orders + q.orders))
  {
    var r := Only(p, p.positions + q.positions, p.orders + q.orders);
    forall u ensures TakenAt(s2, s0, r, u) {
      var o := Order(u.ticket);
      assert TakenAt(s1, s0, p, u) && TakenAt(s1, s0, p, o);
      assert TakenAt(s2, s1, q, u);
    }
  }

  lemma TakenKeepsWellFormed(s: Store, s0: Store, p: Pass)
    requires WellFormed(s0) && PositivePass(p) && IsTaken(s, s0, p)
    ensures WellFormed(s)
  {
    forall u | u in s ensures s[u].uid == u && Shaped(s[u]) && Coherent(s[u]) {
      assert TakenAt(s, s0, p, u);
    }
  }

  lemma AdoptedMember(s: Store, p: Pass, k: Kind, u: Uid)
    ensures u in AdoptedUids(s, p, k) <==>
      u.kind == k && p.adopt && Reported(p, u) && u !in s && (k == PositionOp ==> Order(u.ticket) !in s)
  {
    assert Reported(p, u) ==> u in Universe(s, p);
  }

  /** One more position ticket adds at most one adoption. */
  lemma AdoptedPositionStep(s0: Store, s1: Store, p: Pass, t: int)
    requires IsTaken(s1, s0, p) && p.orders == {}
    ensures |AdoptedUids(s0, Only(p, p.positions + {t}, {}), PositionOp)| ==
      |AdoptedUids(s0, p, PositionOp)|
      + (if p.adopt && Position(t) !in s1 && Order(t) !in s1 then 1 else 0)
  {
    var u, q := Position(t), Only(p, p.positions + {t}, {});
    assert TakenAt(s1, s0, p, u) && TakenAt(s1, s0, p, Order(t));
    var added := if p.adopt && u !in s1 && Order(t) !in s1 then {u} else {};
    forall v ensures v in AdoptedUids(s0, q, PositionOp) <==> v in AdoptedUids(s0, p, PositionOp) + added {
      AdoptedMember(s0, p, PositionOp, v);
      AdoptedMember(s0, q, PositionOp, v);
    }
    assert AdoptedUids(s0, q, PositionOp) == AdoptedUids(s0, p, PositionOp) + added;
    AdoptedMember(s0, p, PositionOp, u);
  }

  /** One more order ticket adds at most one adoption. */
  lemma AdoptedOrderStep(s0: Store, s1: Store, p: Pass, t: int)
    requires IsTaken(s1, s0, p)
    ensures |AdoptedUids(s0, Only(p, p.positions, p.orders + {t}), OrderOp)| ==
      |AdoptedUids(s0, p, OrderOp)| + (if p.adopt && Order(t) !in s1 then 1 else 0)
  {
    var u, q := Order(t), Only(p, p.positions, p.orders + {t});
    assert TakenAt(s1, s0, p, u);
    var added := if p.adopt && u !in s1 then {u} else {};
    forall v ensures v in AdoptedUids(s0, q, OrderOp) <==> v in AdoptedUids(s0, p, OrderOp) + added {
      AdoptedMember(s0, p, OrderOp, v);
      AdoptedMember(s0, q, OrderOp, v);
    }
    assert AdoptedUids(s0, q, OrderOp) == AdoptedUids(s0, p, OrderOp) + added;
    AdoptedMember(s0, p, OrderOp, u);
  }

  lemma AdoptedIgnoresOrders(s: Store, p: Pass, orders: set<int>)
    ensures AdoptedUids(s, Only(p, p.positions, orders), PositionOp) == AdoptedUids(s, p, PositionOp)
  {
    forall v ensures v in AdoptedUids(s, Only(p, p.positions, orders), PositionOp) <==> v in AdoptedUids(s, p, PositionOp) {
      AdoptedMember(s, p, PositionOp, v);
      AdoptedMember(s, Only(p, p.positions, orders), PositionOp, v);
    }
  }

  // ---- Settling the rows whose ticket is gone ----

  ghost predicate SettledAt(s: Store, s0: Store, p: Pass, u: Uid) {
    Get(s, u) == SettledRow(s0, p, u)
  }

  /** The rows in done have been settled, the others have only been taken in. */
  ghost predicate IsSettled(s: Store, s0: Store, p: Pass, done: set<Uid>) {
    forall u :: if u in done then SettledAt(s, s0, p, u) else TakenAt(s, s0, p, u)
  }

  ghost predicate AllSettled(s: Store, s0: Store, p: Pass) {
    forall u :: SettledAt(s, s0, p, u)
  }

  predicate ListsRow(rows: seq<Row>, s: Store, r: Row) {
    r in rows <==> r.uid in ActiveUids(s) && r == s[r.uid]
  }

  /** The rows are the active rows of the table. */
  ghost predicate Lists(rows: seq<Row>, s: Store) {
    PySeq.Distinct(rows) && forall r :: ListsRow(rows, s, r)
  }

  lemma SettledKeepsWellFormed(s: Store, s0: Store, p: Pass, done: set<Uid>)
    requires WellFormed(s0) && PositivePass(p) && IsSettled(s, s0, p, done)
    ensures WellFormed(s)
  {
    forall u | u in s ensures s[u].uid == u && Shaped(s[u]) && Coherent(s[u]) {
      assert if u in done then SettledAt(s, s0, p, u) else TakenAt(s, s0, p, u);
    }
  }

  lemma SettledMember(s0: Store, p: Pass, l: Lifecycle, u: Uid)
    ensures u in SettledUids(s0, p, l) <==>
      && TakenRow(s0, p, u).Some? && TakenRow(s0, p, u).value.lifecycle == Active
      && !Reported(p, u) && Settled(TakenRow(s0, p, u).value, p).lifecycle == l
  {
  }

  ghost function SettledAmong(s0: Store, p: Pass, l: Lifecycle, done: set<Uid>): nat {
    |SettledUids(s0, p, l) * done|
  }

  function UidsOf(rows: seq<Row>): set<Uid> {
    set r | r in rows :: r.uid
  }

  /** Settling one active row advances the loop and counts once, under the state it reaches. */
  lemma SettleStep(s: Store, s': Store, s0: Store, p: Pass, done: set<Uid>, r: Row)
    requires IsSettled(s, s0, p, done)
    requires TakenRow(s0, p, r.uid) == Some(r) && r.lifecycle == Active && r.uid !in done
    requires s' == if Reported(p, r.uid) then s else s[r.uid := Settled(r, p)]
    ensures IsSettled(s', s0, p, done + {r.uid})
    ensures forall l ::
      SettledAmong(s0, p, l, done + {r.uid}) ==
      SettledAmong(s0, p, l, done) + (if MovedTo(r, p) == Some(l) then 1 else 0)
  {
    forall u ensures if u in done + {r.uid} then SettledAt(s', s0, p, u) else TakenAt(s', s0, p, u) {
      assert if u in done then SettledAt(s, s0, p, u) else TakenAt(s, s0, p, u);
    }
    forall l ensures SettledAmong(s0, p, l, done + {r.uid}) ==
        SettledAmong(s0, p, l, done) + (if MovedTo(r, p) == Some(l) then 1 else 0) {
      SettledMember(s0, p, l, r.uid);
      var more := if r.uid in SettledUids(s0, p, l) then {r.uid} else {};
      assert SettledUids(s0, p, l) * (done + {r.uid}) == SettledUids(s0, p, l) * done + more;
    }
  }

  lemma SettledAllDone(s1: Store, s: Store, s0: Store, p: Pass, done: set<Uid>)
    requires IsTaken(s1, s0, p) && done == ActiveUids(s1) && IsSettled(s, s0, p, done)
    ensures AllSettled(s, s0, p)
    ensures forall l :: SettledUids(s0, p, l) * done == SettledUids(s0, p, l)
  {
    forall u ensures SettledAt(s, s0, p, u) { assert TakenAt(s1, s0, p, u); }
    forall l ensures SettledUids(s0, p, l) * done == SettledUids(s0, p, l) {
      forall u | u in SettledUids(s0, p, l) ensures u in done {
        SettledMember(s0, p, l, u);
        assert TakenAt(s1, s0, p, u);
      }
    }
  }

  lemma PurgeIsReconciled(s1: Store, s2: Store, s0: Store, p: Pass)
    requires AllSettled(s1, s0, p)
    requires s2 == map u | u in s1 && !Expired(s1[u], p.cutoff) :: s1[u]
    ensures s2 == Reconciled(s0, p)
  {
    forall u ensures Get(s2, u) == Get(Reconciled(s0, p), u) {
      assert SettledAt(s1, s0, p, u);
      ReconciledAt(s0, p, u);
    }
    StoreExtensional(s2, Reconciled(s0, p));
  }

  lemma PurgeCount(s1: Store, s0: Store, p: Pass)
    requires AllSettled(s1, s0, p)
    ensures (set u | u in s1 && Expired(s1[u], p.cutoff)) == ExpiredUids(s0, p)
  {
    forall u ensures u in s1 && Expired(s1[u], p.cutoff) <==> u in ExpiredUids(s0, p) {
      assert SettledAt(s1, s0, p, u);
    }
  }

  // ---- Loop steps ----

  /** A pass that reports a single ticket, or none if it is not positive. */
  function TakeOne(adopt: bool, u: Uid, now: int): Pass {
    var ids := if u.ticket > 0 then {u.ticket} else {};
    Pass(adopt, if u.kind == PositionOp then ids else {}, if u.kind == OrderOp then ids else {}, {}, {}, now, 0)
  }

  lemma PositiveIdsStep(ids: seq<int>, i: nat)
    requires i < |ids|
    ensures PositiveIds(ids[..i + 1]) == PositiveIds(ids[..i]) + (if ids[i] > 0 then {ids[i]} else {})
  {
    assert ids[..i + 1] == ids[..i] + [ids[i]];
  }

  /** The loop over the broker's positions, after the tickets seen so far. */
  ghost predicate TakingPositions(s: Store, s0: Store, p: Pass, seen: seq<int>, adopted: nat) {
    && IsTaken(s, s0, Only(p, PositiveIds(seen), {}))
    && adopted == |AdoptedUids(s0, Only(p, PositiveIds(seen), {}), PositionOp)|
  }

  lemma PositionTurn(s0: Store, s1: Store, s2: Store, p: Pass, ids: seq<int>, i: nat, adopted: nat, isNew: bool)
    requires WellFormed(s0) && i < |ids| && TakingPositions(s1, s0, p, ids[..i], adopted)
    requires IsTaken(s2, s1, TakeOne(p.adopt, Position(ids[i]), p.now))
    requires isNew <==> ids[i] > 0 && p.adopt && Position(ids[i]) !in s1 && Order(ids[i]) !in s1
    ensures TakingPositions(s2, s0, p, ids[..i + 1], adopted + (if isNew then 1 else 0)) && WellFormed(s2)
  {
    var q := Only(p, PositiveIds(ids[..i]), {});
    PositiveIdsStep(ids, i);
    TakenCompose(s0, s1, s2, q, TakeOne(p.adopt, Position(ids[i]), p.now));
    AdoptedPositionStep(s0, s1, q, ids[i]);
    TakenKeepsWellFormed(s2, s0, Only(p, PositiveIds(ids[..i + 1]), {}));
  }

  /** The same for the broker's pending orders, which come after all positions. */
  ghost predicate TakingOrders(s: Store, s0: Store, p: Pass, seen: seq<int>, adopted: nat) {
    && IsTaken(s, s0, Only(p, p.positions, PositiveIds(seen)))
    && adopted == |AdoptedUids(s0, Only(p, p.positions, PositiveIds(seen)), OrderOp)|
  }

  lemma OrderTurn(s0: Store, s1: Store, s2: Store, p: Pass, ids: seq<int>, i: nat, adopted: nat, isNew: bool)
    requires WellFormed(s0) && PositivePass(Only(p, p.positions, {}))
    requires i < |ids| && TakingOrders(s1, s0, p, ids[..i], adopted)
    requires IsTaken(s2, s1, TakeOne(p.adopt, Order(ids[i]), p.now))
    requires isNew <==> ids[i] > 0 && p.adopt && Order(ids[i]) !in s1
    ensures TakingOrders(s2, s0, p, ids[..i + 1], adopted + (if isNew then 1 else 0)) && WellFormed(s2)
  {
    var q := Only(p, p.positions, PositiveIds(ids[..i]));
    PositiveIdsStep(ids, i);
    TakenCompose(s0, s1, s2, q, TakeOne(p.adopt, Order(ids[i]), p.now));
    AdoptedOrderStep(s0, s1, q, ids[i]);
    TakenKeepsWellFormed(s2, s0, Only(p, p.positions, PositiveIds(ids[..i + 1])));
  }

  lemma IdsInStateAppend(history: seq<HistoryOrder>, h: HistoryOrder, states: set<int>)
    ensures IdsInState(history + [h], states) ==
      IdsInState(history, states) + (if h.orderId > 0 && h.state in states then {h.orderId} else {})
  {
  }

  /** What the deals and the history orders read so far say. */
  ghost predicate Gathered(deals: seq<int>, history: seq<HistoryOrder>, filled: set<int>, cancelled: set<int>) {
    && filled == PositiveIds(deals) + IdsInState(history, FILLED_STATES)
    && cancelled == IdsInState(history, CANCELLED_STATES)
  }

  lemma GatherTurn(
    deals: seq<int>, history: seq<HistoryOrder>, h: HistoryOrder, filled: set<int>, cancelled: set<int>)
    requires Gathered(deals, history, filled, cancelled)
    ensures var state, next := if h.state == 0 then -1 else h.state, history + [h];
      if h.orderId <= 0 then Gathered(deals, next, filled, cancelled)
      else if state in FILLED_STATES then Gathered(deals, next, filled + {h.orderId}, cancelled)
      else if state in CANCELLED_STATES then Gathered(deals, next, filled, cancelled + {h.orderId})
      else Gathered(deals, next, filled, cancelled)
  {
    IdsInStateAppend(history, h, FILLED_STATES);
    IdsInStateAppend(history, h, CANCELLED_STATES);
  }

  lemma NothingAdopted(s: Store, p: Pass)
    ensures p.positions == {} && p.orders == {} ==> AdoptedUids(s, p, PositionOp) == {} && IsTaken(s, s, p)
    ensures p.orders == {} ==> AdoptedUids(s, p, OrderOp) == {}
  {
  }

  lemma OpenRowIsPending(s1: Store, s0: Store, p: Pass, rows: seq<Row>, i: nat)
    requires i < |rows| && IsTaken(s1, s0, p)
    requires Lists(rows, s1)
    ensures rows[i].uid !in UidsOf(rows[..i])
    ensures UidsOf(rows[..i + 1]) == UidsOf(rows[..i]) + {rows[i].uid}
    ensures TakenRow(s0, p, rows[i].uid) == Some(rows[i]) && rows[i].lifecycle == Active
  {
    assert rows[i] in rows && ListsRow(rows, s1, rows[i]);
    assert TakenAt(s1, s0, p, rows[i].uid);
    forall r | r in rows[..i] ensures r.uid != rows[i].uid {
      var j :| 0 <= j < i && rows[j] == r;
      assert rows[j] in rows && rows[j] != rows[i] && ListsRow(rows, s1, rows[j]);
    }
    assert rows[..i + 1] == rows[..i] + [rows[i]];
  }

  lemma SettleReady(s1: Store, s: Store, s0: Store, p: Pass, rows: seq<Row>, i: nat)
    requires WellFormed(s0) && PositivePass(p) && IsTaken(s1, s0, p)
    requires i < |rows| && IsSettled(s, s0, p, UidsOf(rows[..i]))
    requires Lists(rows, s1)
    ensures WellFormed(s) && Get(s, rows[i].uid) == Some(rows[i])
  {
    OpenRowIsPending(s1, s0, p, rows, i);
    SettledKeepsWellFormed(s, s0, p, UidsOf(rows[..i]));
  }

  function MovedTo(r: Row, p: Pass): Option<Lifecycle> {
    if Reported(p, r.uid) then None else Some(Settled(r, p).lifecycle)
  }

  /** The loop over open rows, after those in done, with what it has counted. */
  ghost predicate Settling(s: Store, s0: Store, p: Pass, done: set<Uid>, closed: nat, filled: nat, cancelled: nat) {
    && IsSettled(s, s0, p, done)
    && closed == SettledAmong(s0, p, Closed, done)
    && filled == SettledAmong(s0, p, Filled, done)
    && cancelled == SettledAmong(s0, p, Cancelled, done)
  }

  lemma SettlingStarts(s1: Store, s0: Store, p: Pass, rows: seq<Row>)
    requires IsTaken(s1, s0, p)
    ensures Settling(s1, s0, p, UidsOf(rows[..0]), 0, 0, 0)
  {
    assert UidsOf(rows[..0]) == {};
    forall u ensures TakenAt(s1, s0, p, u) {}
  }

  lemma SettleTurn(
    s1: Store, s: Store, s': Store, s0: Store, p: Pass, rows: seq<Row>, i: nat, moved: Option<Lifecycle>,
    closed: nat, filled: nat, cancelled: nat)
    requires IsTaken(s1, s0, p)
    requires i < |rows| && Lists(rows, s1) && Settling(s, s0, p, UidsOf(rows[..i]), closed, filled, cancelled)
    requires s' == if Reported(p, rows[i].uid) then s else s[rows[i].uid := Settled(rows[i], p)]
    requires moved == MovedTo(rows[i], p)
    ensures Settling(s', s0, p, UidsOf(rows[..i + 1]),
                     closed + (if moved == Some(Closed) then 1 else 0),
                     filled + (if moved == Some(Filled) then 1 else 0),
                     cancelled + (if moved == Some(Cancelled) then 1 else 0))
  {
    OpenRowIsPending(s1, s0, p, rows, i);
    SettleStep(s, s', s0, p, UidsOf(rows[..i]), rows[i]);
  }

  lemma OpenRowsAreActive(s1: Store, rows: seq<Row>)
    requires WellFormed(s1)
    requires Lists(rows, s1)
    ensures UidsOf(rows) == ActiveUids(s1)
  {
    forall u | u in ActiveUids(s1) ensures u in UidsOf(rows) {
      assert ListsRow(rows, s1, s1[u]);
    }
    forall r | r in rows ensures r.uid in ActiveUids(s1) {
      assert ListsRow(rows, s1, r);
    }
  }

  lemma SettlingEnds(
    s1: Store, s: Store, s0: Store, p: Pass, rows: seq<Row>, closed: nat, filled: nat, cancelled: nat)
    requires WellFormed(s1) && IsTaken(s1, s0, p) && Lists(rows, s1)
    requires Settling(s, s0, p, UidsOf(rows), closed, filled, cancelled)
    ensures AllSettled(s, s0, p) && closed == |SettledUids(s0, p, Closed)|
    ensures filled == |SettledUids(s0, p, Filled)| && cancelled == |SettledUids(s0, p, Cancelled)|
  {
    OpenRowsAreActive(s1, rows);
    SettledAllDone(s1, s, s0, p, UidsOf(rows));
  }

  lemma ReconciledKeepsWellFormed(s: Store, p: Pass)
    requires WellFormed(s) && PositivePass(p)
    ensures WellFormed(Reconciled(s, p))
  {
    var after := Reconciled(s, p);
    forall u | u in after ensures WellPlaced(after[u], u) {
      ReconciledAt(s, p, u);
      assert after[u] == ReconciledRow(s, p, u).value;
      TakenIsWellPlaced(s, p, u);
    }
  }

  predicate WellPlaced(r: Row, u: Uid) {
    r.uid == u && Shaped(r) && Coherent(r)
  }

  lemma TakenIsWellPlaced(s: Store, p: Pass, u: Uid)
    requires WellFormed(s) && PositivePass(p)
    ensures TakenRow(s, p, u).Some? ==> WellPlaced(TakenRow(s, p, u).value, u)
    ensures ReconciledRow(s, p, u).Some? ==> WellPlaced(ReconciledRow(s, p, u).value, u)
  {
  }

  // ---- The registry ----

  datatype ReassignError = BadTarget | NoTicket | NotFound | SmcToFast

  class OwnershipRegistry {
    const autoAdopt: bool
    const retentionDays: int
    var store: Store

    constructor (autoAdopt: bool, retentionDays: int)
      ensures store == map[] && this.autoAdopt == autoAdopt && this.retentionDays == retentionDays
    {
      this.autoAdopt, this.retentionDays := autoAdopt, retentionDays;
      store := map[];
    }

    /** Insert or replace by key; a ticket another row holds makes the database raise. */
    method Upsert(row: Row) returns (raised: bool)
      modifies this
      ensures raised <==> Clashes(old(store), row)
      ensures store == if raised then old(store) else old(store)[row.uid := row]
    {
      raised := Clashes(store, row);
      if !raised {
        store := store[row.uid := row];
      }
    }

    method GetByPositionId(t: int) returns (r: Option<Row>)
      ensures r.Some? ==> r.value in store.Values && r.value.positionId == Some(t)
      ensures r.None? ==> forall u :: u in store ==> store[u].positionId != Some(t)
      ensures WellFormed(store) ==> r == Get(store, Position(t))
    {
      if u :| u in store && store[u].positionId == Some(t) {
        r := Some(store[u]);
      } else {
        r := None;
      }
    }

    method GetByOrderId(t: int) returns (r: Option<Row>)
      ensures r.Some? ==> r.value in store.Values && r.value.orderId == Some(t)
      ensures r.None? ==> forall u :: u in store ==> store[u].orderId != Some(t)
      ensures WellFormed(store) ==> r == Get(store, Order(t))
    {
      if u :| u in store && store[u].orderId == Some(t) {
        r := Some(store[u]);
      } else {
        r := None;
      }
    }

    /** The active rows, in some order. */
    method ListOpen() returns (rows: seq<Row>)
      requires WellFormed(store)
      ensures Lists(rows, store)
      ensures |rows| == |ActiveUids(store)|
    {
      rows := [];
      var rest := ActiveUids(store);
      while rest != {}
        invariant rest <= ActiveUids(store) && |rows| + |rest| == |ActiveUids(store)|
        invariant PySeq.Distinct(rows)
        invariant forall r :: r in rows <==> r.uid in ActiveUids(store) - rest && r == store[r.uid]
        decreases |rest|
      {
        var u :| u in rest;
        rows, rest := rows + [store[u]], rest - {u};
      }
    }

    /** Registers a ticket for a desk, overwriting the row of the same key. */
    method RegisterOwnedOperation(kind: Kind, owner: string, positionId: Option<int>, orderId: Option<int>, now: int)
      returns (raised: bool)
      modifies this
      ensures var t := if kind == PositionOp then positionId else orderId;
        var u := Uid(kind, if t.Some? then t.value else 0);
        var row := Row(u, positionId, orderId, OwnerOf(owner), StatusOf(OwnerOf(owner)), Active, false, NoOutcome, now);
        && raised == Clashes(old(store), row)
        && store == (if raised then old(store) else old(store)[u := row])
        && (WellFormed(old(store)) && !raised ==> (WellFormed(store) <==> Shaped(row)))
    {
      var t := if kind == PositionOp then positionId else orderId;
      var u := Uid(kind, if t.Some? then t.value else 0);
      var desk := OwnerOf(owner);
      var row := Row(u, positionId, orderId, desk, StatusOf(desk), Active, false, NoOutcome, now);
      raised := Upsert(row);
      assert !raised ==> store[u] == row;
    }

    /** Registers what an execution produced: the position if there is one, else the order. */
    method RegisterFromExecutionResult(owner: string, position: int, order: int, now: int) returns (raised: bool)
      requires WellFormed(store)
      modifies this
      ensures !raised && WellFormed(store)
      ensures store == if position > 0 then old(store)[Position(position) := Fresh(Position(position), owner, now)]
                       else if order > 0 then old(store)[Order(order) := Fresh(Order(order), owner, now)]
                       else old(store)
    {
      raised := false;
      if position > 0 {
        ShapedNeverClashes(store, Fresh(Position(position), owner, now));
        raised := RegisterOwnedOperation(PositionOp, owner, Some(position), None, now);
      } else if order > 0 {
        ShapedNeverClashes(store, Fresh(Order(order), owner, now));
        raised := RegisterOwnedOperation(OrderOp, owner, None, Some(order), now);
      }
    }

    /** Hands a ticket to another desk; smc never hands one to fast. */
    method Reassign(target: string, positionId: Option<int>, orderId: Option<int>, reevaluate: bool, now: int)
      returns (r: Result<Row, ReassignError>)
      requires WellFormed(store)
      modifies this
      ensures WellFormed(store)
      ensures r == Reassigned(old(store), target, positionId, orderId, reevaluate, now)
      ensures store == if r.Ok? then old(store)[r.value.uid := r.value] else old(store)
    {
      if OwnerOf(target) == Unassigned { return Err(BadTarget); }
      if positionId.None? && orderId.None? { return Err(NoTicket); }
      var found: Option<Row>;
      if positionId.Some? {
        found := GetByPositionId(positionId.value);
      } else {
        found := GetByOrderId(orderId.value);
      }
      if found.None? { return Err(NotFound); }
      if found.value.owner == Smc && OwnerOf(target) == Fast { return Err(SmcToFast); }
      var row := found.value.(owner := OwnerOf(target), status := StatusOf(OwnerOf(target)),
                              reevaluate := reevaluate, updatedAt := now);
      ShapedNeverClashes(store, row);
      var raised := Upsert(row);
      assert !raised;
      r := Ok(row);
    }

    /** Reads the two history lists into the tickets known filled and known cancelled. */
    method GatherEvidence(b: Broker) returns (filled: set<int>, cancelled: set<int>)
      ensures filled == FilledIds(b) && cancelled == CancelledIds(b)
    {
      filled, cancelled := {}, {};
      for i := 0 to |b.deals|
        invariant filled == PositiveIds(b.deals[..i])
      {
        if b.deals[i] > 0 { filled := filled + {b.deals[i]}; }
      }
      assert b.deals[..|b.deals|] == b.deals;
      for i := 0 to |b.history|
        invariant Gathered(b.deals, b.history[..i], filled, cancelled)
      {
        var h := b.history[i];
        assert b.history[..i + 1] == b.history[..i] + [h];
        GatherTurn(b.deals, b.history[..i], h, filled, cancelled);
        if h.orderId <= 0 { continue; }
        var state := if h.state == 0 then -1 else h.state;
        if state in FILLED_STATES {
          filled := filled + {h.orderId};
        } else if state in CANCELLED_STATES {
          cancelled := cancelled + {h.orderId};
        }
      }
      assert b.history[..|b.history|] == b.history;
      cancelled := cancelled - filled;
    }

    /** One turn of the position loop. */
    method TakePosition(t: int, now: int) returns (adopted: bool)
      requires WellFormed(store)
      modifies this
      ensures IsTaken(store, old(store), TakeOne(autoAdopt, Position(t), now))
      ensures adopted <==> t > 0 && autoAdopt && Position(t) !in old(store) && Order(t) !in old(store)
    {
      adopted := false;
      if t <= 0 { return; }
      var raised: bool;
      var existing := GetByPositionId(t);
      if existing.None? {
        var order := GetByOrderId(t);
        if order.Some? {
          ShapedNeverClashes(store, Promoted(order.value, t, now));
          raised := Upsert(Promoted(order.value, t, now));
          assert !raised;
          return;
        }
        if !autoAdopt { return; }
        adopted := true;
        ShapedNeverClashes(store, Adopted(Position(t), now));
        raised := Upsert(Adopted(Position(t), now));
        assert !raised;
        return;
      }
      ShapedNeverClashes(store, Refreshed(existing.value, now));
      raised := Upsert(Refreshed(existing.value, now));
      assert !raised;
    }

    /** One turn of the order loop. */
    method TakeOrder(t: int, now: int) returns (adopted: bool)
      requires WellFormed(store)
      modifies this
      ensures IsTaken(store, old(store), TakeOne(autoAdopt, Order(t), now))
      ensures adopted <==> t > 0 && autoAdopt && Order(t) !in old(store)
    {
      adopted := false;
      if t <= 0 { return; }
      var raised: bool;
      var existing := GetByOrderId(t);
      if existing.None? {
        if !autoAdopt { return; }
        adopted := true;
        ShapedNeverClashes(store, Adopted(Order(t), now));
        raised := Upsert(Adopted(Order(t), now));
        assert !raised;
        return;
      }
      ShapedNeverClashes(store, Refreshed(existing.value, now));
      raised := Upsert(Refreshed(existing.value, now));
      assert !raised;
    }

    /** One turn of the loop over open rows; says which terminal state the row moved to. */
    method SettleRow(row: Row, p: Pass) returns (moved: Option<Lifecycle>)
      requires WellFormed(store) && row.uid in store && store[row.uid] == row
      modifies this
      ensures store == if Reported(p, row.uid) then old(store) else old(store)[row.uid := Settled(row, p)]
      ensures moved == MovedTo(row, p)
    {
      moved := None;
      var positionId := if row.positionId.Some? then row.positionId.value else 0;
      var orderId := if row.orderId.Some? then row.orderId.value else 0;
      var raised: bool;
      ShapedNeverClashes(store, Settled(row, p));
      if row.uid.kind == PositionOp && positionId > 0 && positionId !in p.positions {
        raised := Upsert(row.(lifecycle := Closed, updatedAt := p.now));
        assert !raised;
        moved := Some(Closed);
      }
      if row.uid.kind == OrderOp && orderId > 0 && orderId !in p.orders {
        if orderId in p.filled {
          raised := Upsert(row.(lifecycle := Filled, outcome := OutcomeFilled, updatedAt := p.now));
          moved := Some(Filled);
        } else {
          var outcome := if orderId in p.cancelled then OutcomeCancelled else row.outcome;
          raised := Upsert(row.(lifecycle := Cancelled, outcome := outcome, updatedAt := p.now));
          moved := Some(Cancelled);
        }
        assert !raised;
      }
    }

    /** Deletes terminal rows not touched since the deadline. */
    method Purge(cutoff: int) returns (deleted: nat)
      modifies this
      ensures store == map u | u in old(store) && !Expired(old(store)[u], cutoff) :: old(store)[u]
      ensures deleted == |set u | u in old(store) && Expired(old(store)[u], cutoff)|
    {
      deleted := |set u | u in store && Expired(store[u], cutoff)|;
      store := map u | u in store && !Expired(store[u], cutoff) :: store[u];
    }

    /** The loop over the broker's positions. */
    method TakePositions(b: Broker, p: Pass) returns (adopted: nat)
      requires WellFormed(store) && p.adopt == autoAdopt && p.orders == {}
      requires p.positions == PositiveIds(b.positions)
      modifies this
      ensures IsTaken(store, old(store), p) && adopted == |AdoptedUids(old(store), p, PositionOp)|
    {
      ghost var s0 := store;
      adopted := 0;
      NothingAdopted(s0, Only(p, {}, {}));
      for i := 0 to |b.positions|
        invariant WellFormed(store)
        invariant TakingPositions(store, s0, p, b.positions[..i], adopted)
      {
        ghost var s1 := store;
        var isNew := TakePosition(b.positions[i], p.now);
        PositionTurn(s0, s1, store, p, b.positions, i, adopted, isNew);
        if isNew { adopted := adopted + 1; }
      }
      assert b.positions[..|b.positions|] == b.positions;
    }

    /** The loop over the broker's pending orders. */
    method TakeOrders(b: Broker, p: Pass, ghost s0: Store) returns (adopted: nat)
      requires WellFormed(s0) && PositivePass(p) && p.adopt == autoAdopt
      requires p.orders == PositiveIds(b.orders) && IsTaken(store, s0, Only(p, p.positions, {}))
      modifies this
      ensures IsTaken(store, s0, p) && adopted == |AdoptedUids(s0, p, OrderOp)|
    {
      adopted := 0;
      NothingAdopted(s0, Only(p, p.positions, {}));
      assert PositiveIds(b.orders[..0]) == {};
      TakenKeepsWellFormed(store, s0, Only(p, p.positions, {}));
      for i := 0 to |b.orders|
        invariant WellFormed(store)
        invariant TakingOrders(store, s0, p, b.orders[..i], adopted)
      {
        ghost var s1 := store;
        var isNew := TakeOrder(b.orders[i], p.now);
        OrderTurn(s0, s1, store, p, b.orders, i, adopted, isNew);
        if isNew { adopted := adopted + 1; }
      }
      assert b.orders[..|b.orders|] == b.orders;
    }

    /** Settles the next open row of the loop. */
    method SettleNext(
      p: Pass, rows: seq<Row>, i: nat, ghost s0: Store, ghost s1: Store,
      ghost closed: nat, ghost filled: nat, ghost cancelled: nat)
      returns (moved: Option<Lifecycle>)
      requires WellFormed(s0) && PositivePass(p) && IsTaken(s1, s0, p) && i < |rows| && Lists(rows, s1)
      requires Settling(store, s0, p, UidsOf(rows[..i]), closed, filled, cancelled)
      modifies this
      ensures Settling(store, s0, p, UidsOf(rows[..i + 1]),
                       closed + (if moved == Some(Closed) then 1 else 0),
                       filled + (if moved == Some(Filled) then 1 else 0),
                       cancelled + (if moved == Some(Cancelled) then 1 else 0))
    {
      SettleReady(s1, store, s0, p, rows, i);
      moved := SettleRow(rows[i], p);
      SettleTurn(s1, old(store), store, s0, p, rows, i, moved, closed, filled, cancelled);
    }

    /** The loop over the rows still open. */
    method SettleRows(p: Pass, rows: seq<Row>, ghost s0: Store, ghost s1: Store)
      returns (closed: nat, filled: nat, cancelled: nat)
      requires WellFormed(s0) && PositivePass(p) && IsTaken(s1, s0, p) && Lists(rows, s1) && store == s1
      modifies this
      ensures Settling(store, s0, p, UidsOf(rows), closed, filled, cancelled)
    {
      closed, filled, cancelled := 0, 0, 0;
      SettlingStarts(s1, s0, p, rows);
      for i := 0 to |rows|
        invariant Settling(store, s0, p, UidsOf(rows[..i]), closed, filled, cancelled)
      {
        var moved := SettleNext(p, rows, i, s0, s1, closed, filled, cancelled);
        if moved == Some(Closed) { closed := closed + 1; }
        if moved == Some(Filled) { filled := filled + 1; }
        if moved == Some(Cancelled) { cancelled := cancelled + 1; }
      }
      assert rows[..|rows|] == rows;
    }

    /** Lists the open rows and settles them. */
    method SettleAll(p: Pass, ghost s0: Store) returns (closed: nat, filled: nat, cancelled: nat)
      requires WellFormed(s0) && PositivePass(p) && IsTaken(store, s0, p)
      modifies this
      ensures AllSettled(store, s0, p)
      ensures closed == |SettledUids(s0, p, Closed)|
      ensures filled == |SettledUids(s0, p, Filled)|
      ensures cancelled == |SettledUids(s0, p, Cancelled)|
    {
      ghost var s1 := store;
      TakenKeepsWellFormed(s1, s0, p);
      var rows := ListOpen();
      closed, filled, cancelled := SettleRows(p, rows, s0, s1);
      SettlingEnds(s1, store, s0, p, rows, closed, filled, cancelled);
    }

    /** `reconcile_from_caches`: never raises, and leaves exactly the reconciled table. */
    method ReconcileFromCaches(b: Broker, now: int, later: int) returns (c: Counters)
      requires WellFormed(store)
      modifies this
      ensures var p := PassOf(b, autoAdopt, now, Cutoff(later, retentionDays));
        store == Reconciled(old(store), p) && c == Counted(old(store), p)
      ensures WellFormed(store)
    {
      ghost var s0 := store;
      var filledIds, cancelledIds := GatherEvidence(b);
      var p := Pass(autoAdopt, PositiveIds(b.positions), PositiveIds(b.orders), filledIds, cancelledIds,
                    now, Cutoff(later, retentionDays));
      var adoptedPositions := TakePositions(b, Only(p, p.positions, {}));
      AdoptedIgnoresOrders(s0, Only(p, p.positions, {}), p.orders);
      var adoptedOrders := TakeOrders(b, p, s0);
      var closed, filled, cancelled := SettleAll(p, s0);
      PurgeCount(store, s0, p);
      ghost var s2 := store;
      var purged := Purge(p.cutoff);
      PurgeIsReconciled(s2, store, s0, p);
      ReconciledKeepsWellFormed(s0, p);
      var open := ListOpen();
      c := Counters(adoptedPositions, adoptedOrders, closed, filled, cancelled, purged, |open|);
    }
  }

  /** The row a registration writes. */
  function Fresh(u: Uid, owner: string, now: int): Row {
    Adopted(u, now).(owner := OwnerOf(owner), status := StatusOf(OwnerOf(owner)))
  }

  /** What a reassignment answers. */
  function Reassigned(s: Store, target: string, positionId: Option<int>, orderId: Option<int>, reevaluate: bool, now: int)
    : Result<Row, ReassignError>
  {
    var u := if positionId.Some? then Position(positionId.value) else if orderId.Some? then Order(orderId.value) else Order(0);
    if OwnerOf(target) == Unassigned then Err(BadTarget)
    else if positionId.None? && orderId.None? then Err(NoTicket)
    else if u !in s then Err(NotFound)
    else if s[u].owner == Smc && OwnerOf(target) == Fast then Err(SmcToFast)
    else Ok(s[u].(owner := OwnerOf(target), status := StatusOf(OwnerOf(target)), reevaluate := reevaluate, updatedAt := now))
  }
}
