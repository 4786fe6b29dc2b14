/** Readers of the trace ring whose polls are split into their two reads. */
module PollRuns {
  import opened Wrappers
  import opened ActivityLog

  datatype Step = Emit(trace: Trace) | ReadCursor | Finish

  /** A finished poll: where the reader stood, and how many traces there were at each read. */
  datatype PollRecord = PollRecord(from: nat, seen: nat, now: nat)
  {
    function Share(limit: int): nat { Given(seen, from, limit) }

    /** The poll returned the trace at place x of the log. */
    predicate Gave(limit: int, x: nat) { now - Share(limit) <= x < now }

    /** Place x is one the reader had not seen and has passed since. */
    predicate Covers(x: nat) { from <= x < seen }

    /** The poll could carry its gap, and nothing slipped between its reads. */
    predicate Exact(limit: int) {
      seen - from <= Min(limit, MAX_TRACES) && (from < seen ==> now == seen)
    }
  }

  datatype SplitReader = SplitReader(log: seq<Trace>, cursor: nat, reading: Option<nat>, polls: seq<PollRecord>, given: seq<seq<Trace>>)

  function Next(r: SplitReader, limit: int, s: Step): SplitReader
    requires r.reading.Some? ==> r.reading.value <= |r.log|
  {
    match s
    case Emit(t) => r.(log := r.log + [t])
    case ReadCursor => if r.reading.Some? then r else r.(reading := Some(|r.log|))
    case Finish =>
      if r.reading.None? then r
      else
        var seen := r.reading.value;
        r.(cursor := seen, reading := None, polls := r.polls + [PollRecord(r.cursor, seen, |r.log|)],
           given := r.given + [Polled(r.log[..seen], r.log, r.cursor, limit)])
  }

  function Run(start: seq<Trace>, limit: int, steps: seq<Step>): (r: SplitReader)
    ensures r.reading.Some? ==> r.reading.value <= |r.log|
    decreases |steps|
  {
    if steps == [] then SplitReader(start, |start|, None, [], [])
    else Next(Run(start, limit, steps[..|steps| - 1]), limit, steps[|steps| - 1])
  }

  function End(polls: seq<PollRecord>, start: nat): nat {
    if polls == [] then start else polls[|polls| - 1].seen
  }

  /** Polls follow on from one another. */
  predicate Chained(polls: seq<PollRecord>, start: nat) {
    polls == [] ||
    (var init, last := polls[..|polls| - 1], polls[|polls| - 1];
     && Chained(init, start) && last.from == End(init, start) && last.from <= last.seen <= last.now
     && (init != [] ==> init[|init| - 1].now <= last.seen))
  }

  lemma {:induction false} LinkAt(polls: seq<PollRecord>, start: nat, k: nat)
    requires Chained(polls, start) && k < |polls|
    ensures polls[k].from <= polls[k].seen <= polls[k].now
    ensures if k == 0 then polls[k].from == start
            else polls[k].from == polls[k - 1].seen && polls[k - 1].now <= polls[k].seen
  {
    if k < |polls| - 1 { LinkAt(polls[..|polls| - 1], start, k); }
  }

  /** A poll returned exactly the end of what its second read saw, as long as its share. */
  predicate Returned(log: seq<Trace>, p: PollRecord, items: seq<Trace>, limit: int) {
    p.Share(limit) <= p.now <= |log| && items == log[p.now - p.Share(limit)..p.now]
  }

  ghost predicate Faithful(log: seq<Trace>, polls: seq<PollRecord>, given: seq<seq<Trace>>, limit: int) {
    |given| == |polls| && forall k :: 0 <= k < |polls| ==> Returned(log, polls[k], given[k], limit)
  }

  lemma EmitStaysFaithful(log: seq<Trace>, polls: seq<PollRecord>, given: seq<seq<Trace>>, limit: int, t: Trace)
    requires Faithful(log, polls, given, limit)
    ensures Faithful(log + [t], polls, given, limit)
  {
    forall k | 0 <= k < |polls| ensures Returned(log + [t], polls[k], given[k], limit) {
      assert Returned(log, polls[k], given[k], limit);
    }
  }

  ghost predicate Ready(r: SplitReader) {
    r.reading.Some? ==> r.cursor <= r.reading.value <= |r.log| && (r.polls != [] ==> r.polls[|r.polls| - 1].now <= r.reading.value)
  }

  lemma ShareFits(p: PollRecord, limit: int)
    requires p.from <= p.seen
    ensures p.Share(limit) <= p.seen - p.from
  {
  }

  lemma FinishGives(r: SplitReader, limit: int)
    requires r.reading.Some? && r.cursor <= r.reading.value <= |r.log|
    ensures var p := PollRecord(r.cursor, r.reading.value, |r.log|);
      && p.Share(limit) <= p.now
      && Polled(r.log[..p.seen], r.log, p.from, limit) == r.log[p.now - p.Share(limit)..]
  {
    var p := PollRecord(r.cursor, r.reading.value, |r.log|);
    ShareFits(p, limit);
    if p.from < p.seen {
      assert r.log == r.log[..p.seen] + r.log[p.seen..];
      TornPollSlides(r.log[..p.seen], r.log[p.seen..], p.from, limit);
    }
  }

  lemma FinishStaysChained(polls: seq<PollRecord>, start: nat, seen: nat, now: nat)
    requires Chained(polls, start) && End(polls, start) <= seen <= now
    requires polls != [] ==> polls[|polls| - 1].now <= seen
    ensures Chained(polls + [PollRecord(End(polls, start), seen, now)], start)
  {
    assert (polls + [PollRecord(End(polls, start), seen, now)])[..|polls|] == polls;
  }

  /** The reader stands where its last poll ended, and its polls follow on from one another. */
  ghost predicate InOrder(r: SplitReader, start: nat) {
    && Ready(r) && Chained(r.polls, start) && r.cursor == End(r.polls, start) <= |r.log|
    && (r.polls != [] ==> r.polls[|r.polls| - 1].now <= |r.log|)
  }

  lemma StepStaysInOrder(r: SplitReader, limit: int, step: Step, start: nat)
    requires InOrder(r, start)
    ensures InOrder(Next(r, limit, step), start)
  {
    if step.Finish? && r.reading.Some? {
      FinishStaysChained(r.polls, start, r.reading.value, |r.log|);
    }
  }

  lemma {:induction false} RunIsInOrder(start: seq<Trace>, limit: int, steps: seq<Step>)
    ensures InOrder(Run(start, limit, steps), |start|)
    decreases |steps|
  {
    if steps != [] {
      var r := Run(start, limit, steps[..|steps| - 1]);
      RunIsInOrder(start, limit, steps[..|steps| - 1]);
      StepStaysInOrder(r, limit, steps[|steps| - 1], |start|);
    }
  }

  lemma FaithfulAppend(log: seq<Trace>, polls: seq<PollRecord>, given: seq<seq<Trace>>, limit: int,
                       p: PollRecord, items: seq<Trace>)
    requires Faithful(log, polls, given, limit) && Returned(log, p, items, limit)
    ensures Faithful(log, polls + [p], given + [items], limit)
  {
  }

  lemma FinishStaysFaithful(r: SplitReader, limit: int)
    requires r.reading.Some? && r.cursor <= r.reading.value <= |r.log| && Faithful(r.log, r.polls, r.given, limit)
    ensures var n := Next(r, limit, Finish);
      Faithful(n.log, n.polls, n.given, limit)
  {
    FinishGives(r, limit);
    var p := PollRecord(r.cursor, r.reading.value, |r.log|);
    FaithfulAppend(r.log, r.polls, r.given, limit, p, r.log[p.now - p.Share(limit)..]);
  }

  lemma StepStaysFaithful(r: SplitReader, limit: int, step: Step, start: nat)
    requires InOrder(r, start) && Faithful(r.log, r.polls, r.given, limit)
    ensures var n := Next(r, limit, step);
      Faithful(n.log, n.polls, n.given, limit)
  {
    match step
    case Emit(t) => EmitStaysFaithful(r.log, r.polls, r.given, limit, t);
    case ReadCursor =>
    case Finish => if r.reading.Some? { FinishStaysFaithful(r, limit); }
  }

  /** What each poll of a run returned, whatever was emitted between its reads. */
  lemma {:induction false} RunIsFaithful(start: seq<Trace>, limit: int, steps: seq<Step>)
    ensures var r := Run(start, limit, steps);
      Faithful(r.log, r.polls, r.given, limit)
    decreases |steps|
  {
    if steps != [] {
      var r := Run(start, limit, steps[..|steps| - 1]);
      RunIsFaithful(start, limit, steps[..|steps| - 1]);
      RunIsInOrder(start, limit, steps[..|steps| - 1]);
      StepStaysFaithful(r, limit, steps[|steps| - 1], |start|);
    }
  }

  // ---- Which places are lost, and which come twice ----

  lemma {:induction false} LaterPolls(polls: seq<PollRecord>, start: nat, i: nat, j: nat)
    requires Chained(polls, start) && i < j < |polls|
    ensures polls[i].seen <= polls[j].from && polls[i].now <= polls[j].seen
    decreases j - i
  {
    LinkAt(polls, start, j);
    LinkAt(polls, start, j - 1);
    if i + 1 < j { LaterPolls(polls, start, i, j - 1); }
  }

  /** Every place the reader has passed belongs to one poll. */
  lemma {:induction false} PlaceIsCovered(polls: seq<PollRecord>, start: nat, x: nat)
    requires Chained(polls, start) && start <= x < End(polls, start)
    ensures exists k :: 0 <= k < |polls| && polls[k].Covers(x)
    decreases |polls|
  {
    var n := |polls| - 1;
    if polls[n].from <= x {
      assert polls[n].Covers(x);
    } else {
      PlaceIsCovered(polls[..n], start, x);
      var k :| 0 <= k < n && polls[..n][k].Covers(x);
      assert polls[k].Covers(x);
    }
  }

  /** Only the poll a place belongs to, and the one before it, can return it. */
  lemma OnlyTwoCanGive(polls: seq<PollRecord>, start: nat, limit: int, k: nat, j: nat, x: nat)
    requires Chained(polls, start) && k < |polls| && j < |polls| && polls[k].Covers(x) && polls[j].Gave(limit, x)
    ensures j == k || j + 1 == k
  {
    LinkAt(polls, start, j);
    ShareFits(polls[j], limit);
    if k < j {
      LaterPolls(polls, start, k, j);
    } else if j + 1 < k {
      LinkAt(polls, start, j + 1);
      LaterPolls(polls, start, j + 1, k);
    }
  }

  /** The poll before the one place x belongs to returned it: x slipped in between its reads. */
  predicate Early(polls: seq<PollRecord>, limit: int, k: nat, x: nat)
    requires k < |polls|
  {
    k > 0 && polls[k - 1].now - polls[k - 1].Share(limit) <= x < polls[k - 1].now
  }

  /** The poll x belongs to did not reach back to it. */
  predicate Missed(polls: seq<PollRecord>, limit: int, k: nat, x: nat)
    requires k < |polls|
  {
    x < polls[k].now - polls[k].Share(limit)
  }

  /** A trace is lost exactly if its poll missed it and the poll before did not return it early. */
  lemma LostIff(polls: seq<PollRecord>, start: nat, limit: int, k: nat, x: nat)
    requires Chained(polls, start) && k < |polls| && polls[k].Covers(x)
    ensures (forall j :: 0 <= j < |polls| ==> !polls[j].Gave(limit, x)) <==>
      Missed(polls, limit, k, x) && !Early(polls, limit, k, x)
  {
    forall j | 0 <= j < |polls| && polls[j].Gave(limit, x) ensures j == k || j + 1 == k {
      OnlyTwoCanGive(polls, start, limit, k, j, x);
    }
    LinkAt(polls, start, k);
    if k > 0 { assert Early(polls, limit, k, x) <==> polls[k - 1].Gave(limit, x); }
    assert Missed(polls, limit, k, x) <==> !polls[k].Gave(limit, x);
  }

  /** It comes twice exactly if the poll before returned it early and its own did not miss it;
      it never comes more often. */
  lemma RepeatedIff(polls: seq<PollRecord>, start: nat, limit: int, k: nat, x: nat)
    requires Chained(polls, start) && k < |polls| && polls[k].Covers(x)
    ensures (exists i, j :: 0 <= i < j < |polls| && polls[i].Gave(limit, x) && polls[j].Gave(limit, x)) <==>
      Early(polls, limit, k, x) && !Missed(polls, limit, k, x)
    ensures forall i, j :: 0 <= i < j < |polls| && polls[i].Gave(limit, x) && polls[j].Gave(limit, x) ==> j == k && i + 1 == k
  {
    forall j | 0 <= j < |polls| && polls[j].Gave(limit, x) ensures j == k || j + 1 == k {
      OnlyTwoCanGive(polls, start, limit, k, j, x);
    }
    LinkAt(polls, start, k);
    if Early(polls, limit, k, x) && !Missed(polls, limit, k, x) {
      assert polls[k - 1].Gave(limit, x) && polls[k].Gave(limit, x);
    }
  }

  // ---- When nothing is lost ----

  ghost predicate AllGiven(polls: seq<PollRecord>, start: nat, limit: int) {
    forall x: nat :: start <= x < End(polls, start) ==> GivenSomewhere(polls, limit, x)
  }

  predicate GivenSomewhere(polls: seq<PollRecord>, limit: int, x: nat) {
    exists k :: 0 <= k < |polls| && polls[k].Gave(limit, x)
  }

  lemma ExactIff(p: PollRecord, limit: int)
    requires p.from <= p.seen <= p.now && limit > 0
    ensures p.Exact(limit) <==> (p.from < p.seen ==> p.Gave(limit, p.from) && p.now == p.seen)
    ensures p.from < p.seen && p.Gave(limit, p.from) ==> p.now == p.seen
  {
    GivenIsGap(p.seen, p.from, limit);
  }

  /** The first poll that is not exact loses the first trace of its gap for good. */
  lemma FirstInexactLoses(polls: seq<PollRecord>, start: nat, limit: int, k: nat)
    requires Chained(polls, start) && limit > 0 && k < |polls| && !polls[k].Exact(limit)
    requires forall j :: 0 <= j < k ==> polls[j].Exact(limit)
    ensures polls[k].Covers(polls[k].from) && !GivenSomewhere(polls, limit, polls[k].from)
  {
    var x := polls[k].from;
    LinkAt(polls, start, k);
    ExactIff(polls[k], limit);
    if k > 0 {
      LinkAt(polls, start, k - 1);
      ShareFits(polls[k - 1], limit);
      assert polls[k - 1].Exact(limit);
    }
    LostIff(polls, start, limit, k, x);
  }

  lemma {:induction false} FirstInexact(polls: seq<PollRecord>, limit: int, k: nat) returns (i: nat)
    requires k < |polls| && !polls[k].Exact(limit)
    ensures i < |polls| && !polls[i].Exact(limit) && forall j :: 0 <= j < i ==> polls[j].Exact(limit)
  {
    if j :| 0 <= j < k && !polls[j].Exact(limit) {
      i := FirstInexact(polls, limit, j);
    } else {
      i := k;
    }
  }

  lemma CoveredIsPassed(polls: seq<PollRecord>, start: nat, k: nat, x: nat)
    requires Chained(polls, start) && k < |polls| && polls[k].Covers(x)
    ensures start <= x < End(polls, start)
  {
    LinkAt(polls, start, 0);
    if k > 0 { LaterPolls(polls, start, 0, k); }
    if k < |polls| - 1 { LaterPolls(polls, start, k, |polls| - 1); }
  }

  lemma AllGivenIff(polls: seq<PollRecord>, start: nat, limit: int)
    requires Chained(polls, start) && limit > 0
    ensures AllGiven(polls, start, limit) <==> forall k :: 0 <= k < |polls| ==> polls[k].Exact(limit)
  {
    if k :| 0 <= k < |polls| && !polls[k].Exact(limit) {
      var i := FirstInexact(polls, limit, k);
      FirstInexactLoses(polls, start, limit, i);
      CoveredIsPassed(polls, start, i, polls[i].from);
    } else {
      forall x: nat | start <= x < End(polls, start) ensures GivenSomewhere(polls, limit, x) {
        PlaceIsCovered(polls, start, x);
        var k :| 0 <= k < |polls| && polls[k].Covers(x);
        LinkAt(polls, start, k);
        GivenIsGap(polls[k].seen, polls[k].from, limit);
        assert polls[k].Gave(limit, x);
      }
    }
  }

  /** Over every run of emits and the two halves of polls, a reader misses nothing emitted between
      joining and its last poll exactly if every poll could carry its gap and, unless the gap was
      empty, nothing was emitted between its reads. */
  lemma NothingLostIff(start: seq<Trace>, limit: int, steps: seq<Step>)
    requires limit > 0
    ensures var polls := Run(start, limit, steps).polls;
      AllGiven(polls, |start|, limit) <==> forall k :: 0 <= k < |polls| ==> polls[k].Exact(limit)
  {
    RunIsInOrder(start, limit, steps);
    AllGivenIff(Run(start, limit, steps).polls, |start|, limit);
  }
}
