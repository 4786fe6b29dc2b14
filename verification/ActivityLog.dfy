/** The Fast desk's in-memory activity rings and the cursor readers poll them with. */
module ActivityLog {
  import opened Wrappers
  import PySeq
  import Symbols

  datatype Event = Event(symbol: string, gate: string, passed: bool)

  datatype Trace = Trace(id: string, symbol: string, finalGate: string, finalPassed: bool)

  const MAX_PER_SYMBOL: nat := 200
  const MAX_GLOBAL: nat := 500
  const MAX_TRACES: nat := 300

  function Min(a: int, b: int): int { if a <= b then a else b }

  // ---- What a poll returns ----

  /** `pipeline_traces_since` after its two reads: `current` and `total` were read first, `items` later. */
  function Selected(items: seq<Trace>, since: int, current: nat, total: nat, limit: int): seq<Trace> {
    if since >= current then [] else PySeq.Tail(PySeq.Tail(items, Min(current - since, total)), limit)
  }

  /** A poll whose first read saw `seen` and whose second read saw `now`. */
  function Polled(seen: seq<Trace>, now: seq<Trace>, since: int, limit: int): seq<Trace> {
    Selected(PySeq.Newest(now, MAX_TRACES), since, |seen|, |PySeq.Newest(seen, MAX_TRACES)|, limit)
  }

  /** How many of n traces a reader at `since` has not seen, as far as the ring still holds them. */
  function Held(n: nat, since: int): nat {
    if since >= n then 0 else Min(Min(n - since, n), MAX_TRACES)
  }

  /** And how many of those a poll with this limit gives it. */
  function Given(n: nat, since: int, limit: int): nat {
    var held := Held(n, since);
    if limit > 0 then Min(held, limit) else if held + limit > 0 then held + limit else 0
  }

  lemma TailOfTail<T>(s: seq<T>, a: int, b: int)
    requires a > 0
    ensures PySeq.Tail(PySeq.Tail(s, a), b) ==
      (var held := Min(a, |s|);
       var given := if b > 0 then Min(held, b) else if held + b > 0 then held + b else 0;
       s[|s| - given..])
  {
  }

  /** An uninterrupted poll returns the newest traces after the reader's position, as many as
      the ring holds and a positive limit allows; limit 0 means all, and a negative limit drops
      that many of the oldest. */
  lemma PollIsNewest(log: seq<Trace>, since: int, limit: int)
    ensures Polled(log, log, since, limit) == log[|log| - Given(|log|, since, limit)..]
  {
    if since < |log| && log != [] {
      TailOfTail(PySeq.Newest(log, MAX_TRACES), Min(|log| - since, |PySeq.Newest(log, MAX_TRACES)|), limit);
    }
  }

  /** If traces are emitted between the two reads of one poll, what it returns slides past the
      traces it should have returned by just as many. */
  lemma TornPollSlides(seen: seq<Trace>, extra: seq<Trace>, since: nat, limit: int)
    requires since < |seen|
    ensures var given, now := Given(|seen|, since, limit), seen + extra;
      Polled(seen, now, since, limit) == now[|now| - given..]
  {
    TailOfTail(PySeq.Newest(seen + extra, MAX_TRACES), Min(|seen| - since, |PySeq.Newest(seen, MAX_TRACES)|), limit);
  }

  lemma SlidIsDifferent(seen: seq<Trace>, extra: seq<Trace>, given: nat)
    requires 0 < given <= |seen| && (extra != [] ==> extra[|extra| - 1] != seen[|seen| - 1])
    ensures (seen + extra)[|seen + extra| - given..] == seen[|seen| - given..] <==> extra == []
  {
    var now := seen + extra;
    if extra == [] {
      assert now == seen;
    } else {
      assert now[|now| - given..][given - 1] == extra[|extra| - 1];
      assert seen[|seen| - given..][given - 1] == seen[|seen| - 1];
    }
  }

  /** So a poll that returns anything is right exactly when nothing came between its reads, as
      long as the newest trace is not the same as the newest that was seen. */
  lemma PollIsExactIff(seen: seq<Trace>, extra: seq<Trace>, since: nat, limit: int)
    requires since < |seen| && (extra != [] ==> extra[|extra| - 1] != seen[|seen| - 1])
    requires Given(|seen|, since, limit) > 0
    ensures Polled(seen, seen + extra, since, limit) == Polled(seen, seen, since, limit) <==> extra == []
  {
    PollIsNewest(seen, since, limit);
    TornPollSlides(seen, extra, since, limit);
    SlidIsDifferent(seen, extra, Given(|seen|, since, limit));
  }

  /** And when something did come between, the reader's next poll repeats the last trace. */
  lemma TornPollRepeats(seen: seq<Trace>, extra: seq<Trace>, since: nat, limit: int)
    requires since < |seen| && extra != [] && limit > 0
    ensures var now := seen + extra;
      && now[|now| - 1] in Polled(seen, now, since, limit)
      && now[|now| - 1] in Polled(now, now, |seen|, limit)
  {
    var now := seen + extra;
    TornPollSlides(seen, extra, since, limit);
    PollIsNewest(now, |seen|, limit);
    assert Polled(seen, now, since, limit)[Given(|seen|, since, limit) - 1] == now[|now| - 1];
    assert Polled(now, now, |seen|, limit)[Given(|now|, |seen|, limit) - 1] == now[|now| - 1];
  }

  // ---- Runs of one emitter and one reader ----

  datatype Step = Emit(trace: Trace) | Poll

  /** The emission log, the reader's cursor, everything it was given and where that stood. */
  datatype Reader = Reader(log: seq<Trace>, cursor: nat, given: seq<Trace>, places: seq<nat>)

  function Places(from: nat, to: nat): (r: seq<nat>)
    requires from <= to
    ensures |r| == to - from && forall k :: 0 <= k < |r| ==> r[k] == from + k
  {
    seq(to - from, k requires 0 <= k => from + k)
  }

  function Next(r: Reader, limit: int, s: Step): Reader {
    match s
    case Emit(t) => r.(log := r.log + [t])
    case Poll =>
      var n := Given(|r.log|, r.cursor, limit);
      r.(cursor := |r.log|, given := r.given + Polled(r.log, r.log, r.cursor, limit),
         places := r.places + Places(|r.log| - n, |r.log|))
  }

  /** A reader that joins when `start` has been emitted already, as a streaming client does. */
  function Run(start: seq<Trace>, limit: int, steps: seq<Step>): (r: Reader)
    ensures |start| <= r.cursor <= |r.log|
    decreases |steps|
  {
    if steps == [] then Reader(start, |start|, [], [])
    else Next(Run(start, limit, steps[..|steps| - 1]), limit, steps[|steps| - 1])
  }

  /** Everything given is what the log holds at its place; places only ever increase. */
  ghost predicate Orderly(r: Reader, start: nat) {
    && r.cursor <= |r.log| && |r.given| == |r.places|
    && (forall k :: 0 <= k < |r.places| ==> start <= r.places[k] < r.cursor && r.given[k] == r.log[r.places[k]])
    && (forall j, k :: 0 <= j < k < |r.places| ==> r.places[j] < r.places[k])
  }

  /** Handing over the end of the log, from a place the reader has not passed, keeps the order. */
  lemma GivingKeepsOrder(r: Reader, start: nat, from: nat, items: seq<Trace>, places: seq<nat>)
    requires Orderly(r, start) && start <= r.cursor <= from <= |r.log|
    requires items == r.log[from..] && places == Places(from, |r.log|)
    ensures Orderly(Reader(r.log, |r.log|, r.given + items, r.places + places), start)
  {
    var next := Reader(r.log, |r.log|, r.given + items, r.places + places);
    forall k | 0 <= k < |next.places|
      ensures start <= next.places[k] < next.cursor && next.given[k] == next.log[next.places[k]]
    {
      if k >= |r.places| { assert next.places[k] == places[k - |r.places|] && next.given[k] == items[k - |r.places|]; }
    }
    forall j, k | 0 <= j < k < |next.places| ensures next.places[j] < next.places[k] {
      if k >= |r.places| { assert next.places[k] == places[k - |r.places|]; }
    }
  }

  lemma PollKeepsOrder(r: Reader, start: nat, limit: int)
    requires Orderly(r, start) && start <= r.cursor
    ensures Orderly(Next(r, limit, Poll), start)
  {
    PollIsNewest(r.log, r.cursor, limit);
    var from := |r.log| - Given(|r.log|, r.cursor, limit);
    var items, places := r.log[from..], Places(from, |r.log|);
    GivingKeepsOrder(r, start, from, items, places);
    assert Next(r, limit, Poll) == Reader(r.log, |r.log|, r.given + items, r.places + places);
  }

  /** Whatever the limit and the gaps, a reader sees traces in emission order, none twice, and
      none from before it joined. */
  lemma {:induction false} RunIsOrderly(start: seq<Trace>, limit: int, steps: seq<Step>)
    ensures Orderly(Run(start, limit, steps), |start|)
    decreases |steps|
  {
    if steps != [] {
      var r := Run(start, limit, steps[..|steps| - 1]);
      RunIsOrderly(start, limit, steps[..|steps| - 1]);
      if steps[|steps| - 1].Poll? { PollKeepsOrder(r, |start|, limit); }
    }
  }

  /** Every poll of the run finds no more new traces than the ring and the limit can carry. */
  predicate NeverBehind(start: seq<Trace>, limit: int, steps: seq<Step>)
    decreases |steps|
  {
    steps == [] ||
    (var r := Run(start, limit, steps[..|steps| - 1]);
     NeverBehind(start, limit, steps[..|steps| - 1]) &&
     (steps[|steps| - 1].Poll? ==> |r.log| - r.cursor <= Min(limit, MAX_TRACES)))
  }

  lemma GivenIsGap(n: nat, since: nat, limit: int)
    requires since <= n && limit > 0
    ensures Given(n, since, limit) <= n - since
    ensures Given(n, since, limit) == n - since <==> n - since <= Min(limit, MAX_TRACES)
  {
  }

  lemma {:induction false} NothingLostByLength(start: seq<Trace>, limit: int, steps: seq<Step>)
    requires limit > 0
    ensures var r := Run(start, limit, steps);
      |r.given| <= r.cursor - |start| && (|r.given| == r.cursor - |start| <==> NeverBehind(start, limit, steps))
    decreases |steps|
  {
    if steps != [] {
      var r := Run(start, limit, steps[..|steps| - 1]);
      NothingLostByLength(start, limit, steps[..|steps| - 1]);
      GivenIsGap(|r.log|, r.cursor, limit);
      PollIsNewest(r.log, r.cursor, limit);
    }
  }

  lemma {:induction false} AscendingPlaces(places: seq<nat>, from: nat, to: nat)
    requires from <= to && |places| == to - from && forall k :: 0 <= k < |places| ==> from <= places[k] < to
    requires forall j, k :: 0 <= j < k < |places| ==> places[j] < places[k]
    ensures forall k :: 0 <= k < |places| ==> places[k] == from + k
  {
    if places != [] {
      var n := |places| - 1;
      var init := places[..n];
      forall k | 0 <= k < n ensures from <= init[k] < to - 1 { assert places[k] < places[n]; }
      AscendingPlaces(init, from, to - 1);
      assert forall k :: 0 <= k < n ==> places[k] == init[k];
      if n > 0 { assert places[n - 1] < places[n]; }
    }
  }

  lemma FullReaderHasLog(r: Reader, start: nat)
    requires Orderly(r, start) && start <= r.cursor && |r.given| == r.cursor - start
    ensures r.given == r.log[start..r.cursor]
  {
    AscendingPlaces(r.places, start, r.cursor);
    var all := r.log[start..r.cursor];
    assert |all| == |r.given|;
    forall k | 0 <= k < |all| ensures r.given[k] == all[k] {
      assert r.places[k] == start + k;
    }
  }

  /** The deliveries, put together, are exactly what was emitted between joining and the last
      poll, if and only if no poll found a larger gap than the limit and the ring can carry. */
  lemma DeliveriesAreTheLogIff(start: seq<Trace>, limit: int, steps: seq<Step>)
    requires limit > 0
    ensures var r := Run(start, limit, steps);
      r.given == r.log[|start|..r.cursor] <==> NeverBehind(start, limit, steps)
  {
    var r := Run(start, limit, steps);
    NothingLostByLength(start, limit, steps);
    if NeverBehind(start, limit, steps) {
      RunIsOrderly(start, limit, steps);
      FullReaderHasLog(r, |start|);
    }
  }

  // ---- Scan events ----

  /** The events of one symbol. */
  function Of(events: seq<Event>, symbol: string): (r: seq<Event>)
    ensures forall e :: e in r ==> e.symbol == symbol && e in events
  {
    if events == [] then []
    else
      var e := events[|events| - 1];
      Of(events[..|events| - 1], symbol) + (if e.symbol == symbol then [e] else [])
  }

  lemma OfAppend(events: seq<Event>, e: Event, symbol: string)
    ensures Of(events + [e], symbol) == Of(events, symbol) + (if e.symbol == symbol then [e] else [])
  {
    assert (events + [e])[..|events|] == events;
  }

  /** Every symbol that was heard of has its ring, holding its newest events. */
  ghost predicate RingsHold(rings: map<string, seq<Event>>, events: seq<Event>) {
    forall s :: RingHolds(rings, events, s)
  }

  predicate RingHolds(rings: map<string, seq<Event>>, events: seq<Event>, s: string) {
    if s in rings then rings[s] == PySeq.Newest(Of(events, s), MAX_PER_SYMBOL) && rings[s] != []
    else Of(events, s) == []
  }

  lemma RingsStep(rings: map<string, seq<Event>>, events: seq<Event>, e: Event)
    requires RingsHold(rings, events)
    ensures var ring := if e.symbol in rings then rings[e.symbol] else [];
      RingsHold(rings[e.symbol := PySeq.Newest(ring + [e], MAX_PER_SYMBOL)], events + [e])
  {
    var ring := if e.symbol in rings then rings[e.symbol] else [];
    var after := rings[e.symbol := PySeq.Newest(ring + [e], MAX_PER_SYMBOL)];
    forall s ensures RingHolds(after, events + [e], s) {
      assert RingHolds(rings, events, s);
      OfAppend(events, e, s);
      if s == e.symbol {
        PySeq.NewestAppend(Of(events, s), [e], MAX_PER_SYMBOL);
      }
    }
  }

  function Blocked(events: seq<Event>): (r: seq<string>)
    ensures |r| <= |events|
  {
    if events == [] then []
    else
      var e := events[|events| - 1];
      Blocked(events[..|events| - 1]) + (if e.passed then [] else [e.gate])
  }

  /** The places at which a gate blocked. */
  function BlockedPlaces(events: seq<Event>, g: string): set<nat> {
    set i: nat | i < |events| && !events[i].passed && events[i].gate == g
  }

  lemma BlockedLast(events: seq<Event>, g: string)
    requires events != []
    ensures var n := |events| - 1;
      multiset(Blocked(events))[g] ==
        multiset(Blocked(events[..n]))[g] + (if !events[n].passed && events[n].gate == g then 1 else 0)
  {
    var n := |events| - 1;
    PySeq.OneMoreEntry(Blocked(events[..n]), events[n].gate, g);
  }

  lemma PlacesLast(events: seq<Event>, g: string)
    requires events != []
    ensures var n := |events| - 1;
      |BlockedPlaces(events, g)| ==
        |BlockedPlaces(events[..n], g)| + (if !events[n].passed && events[n].gate == g then 1 else 0)
  {
    var n := |events| - 1;
    PySeq.OneMorePlace(BlockedPlaces(events, g), BlockedPlaces(events[..n], g), n, !events[n].passed && events[n].gate == g);
  }

  /** A gate is listed as often as it blocked an event. */
  lemma {:induction false} BlockedIs(events: seq<Event>, g: string)
    ensures multiset(Blocked(events))[g] == |BlockedPlaces(events, g)|
  {
    if events != [] {
      BlockedIs(events[..|events| - 1], g);
      BlockedLast(events, g);
      PlacesLast(events, g);
    }
  }

  /** Nothing a symbol was heard of is left out of its events. */
  lemma {:induction false} OfHasAll(events: seq<Event>, e: Event)
    ensures multiset(Of(events, e.symbol))[e] == multiset(events)[e]
  {
    if events != [] {
      var n := |events| - 1;
      OfHasAll(events[..n], e);
      assert events == events[..n] + [events[n]];
      OfAppend(events[..n], events[n], e.symbol);
      PySeq.OneMoreEntry(events[..n], events[n], e);
      PySeq.OneMoreEntry(Of(events[..n], e.symbol), events[n], e);
    }
  }

  datatype Summary = Summary(lastGate: string, lastPassed: bool, blocked: nat, passed: nat, blockByGate: map<string, nat>)

  /** Each gate is counted as often as it blocked, and gates that never blocked are absent. */
  ghost predicate CountsGates(counts: map<string, nat>, gates: seq<string>) {
    && (forall g :: g in counts ==> counts[g] == multiset(gates)[g] && g in gates)
    && (forall g :: g in gates ==> g in counts)
  }

  /** What a summary says of a symbol's newest events. */
  ghost predicate Summarises(u: Summary, events: seq<Event>)
    requires events != []
  {
    && u.lastGate == events[|events| - 1].gate && u.lastPassed == events[|events| - 1].passed
    && u.blocked == |Blocked(events)| && u.blocked + u.passed == |events|
    && CountsGates(u.blockByGate, Blocked(events))
  }

  /** A symbol's summary covers the newest two hundred of all its events. */
  ghost predicate SummaryHolds(u: Summary, events: seq<Event>, symbol: string) {
    Of(events, symbol) != [] && Summarises(u, PySeq.Newest(Of(events, symbol), MAX_PER_SYMBOL))
  }

  /** The last gate of a summary is the one that judged the symbol's latest event. */
  lemma SummaryIsCurrent(u: Summary, older: seq<Event>, e: Event)
    requires SummaryHolds(u, older + [e], e.symbol)
    ensures u.lastGate == e.gate && u.lastPassed == e.passed
  {
    OfAppend(older, e, e.symbol);
    var mine := Of(older + [e], e.symbol);
    assert PySeq.Newest(mine, MAX_PER_SYMBOL)[|PySeq.Newest(mine, MAX_PER_SYMBOL)| - 1] == mine[|mine| - 1] == e;
  }

  lemma CountsStep(counts: map<string, nat>, gates: seq<string>, g: string)
    requires CountsGates(counts, gates)
    ensures CountsGates(counts[g := (if g in counts then counts[g] else 0) + 1], gates + [g])
  {
    assert multiset(gates + [g]) == multiset(gates) + multiset{g};
    assert g !in gates ==> multiset(gates)[g] == 0;
  }

  method Summarise(events: seq<Event>) returns (u: Summary)
    requires events != []
    ensures Summarises(u, events)
  {
    var blocked, passed := 0, 0;
    var counts: map<string, nat> := map[];
    for i := 0 to |events|
      invariant blocked == |Blocked(events[..i])| && blocked + passed == i
      invariant CountsGates(counts, Blocked(events[..i]))
    {
      assert events[..i + 1][..i] == events[..i];
      var e := events[i];
      if e.passed {
        passed := passed + 1;
      } else {
        CountsStep(counts, Blocked(events[..i]), e.gate);
        blocked, counts := blocked + 1, counts[e.gate := (if e.gate in counts then counts[e.gate] else 0) + 1];
      }
    }
    assert events[..|events|] == events;
    var last := events[|events| - 1];
    u := Summary(last.gate, last.passed, blocked, passed, counts);
  }

  lemma ReversedHead<T>(s: seq<T>, n: nat)
    ensures PySeq.Head(PySeq.Reversed(s), n) == PySeq.Reversed(PySeq.Newest(s, n))
  {
    var h, r := PySeq.Head(PySeq.Reversed(s), n), PySeq.Reversed(PySeq.Newest(s, n));
    assert |h| == |r|;
    assert forall k :: 0 <= k < |h| ==> h[k] == r[k];
  }

  lemma NewestOfNewest<T>(s: seq<T>, a: nat, b: nat)
    ensures PySeq.Newest(PySeq.Newest(s, a), b) == PySeq.Newest(s, Min(b, a))
  {
  }

  /** The newest n of a ring, newest first, are the newest n of the whole history. */
  lemma RecentIsNewest<T>(s: seq<T>, n: nat, bound: nat)
    ensures PySeq.Head(PySeq.Reversed(PySeq.Newest(s, bound)), n) == PySeq.Reversed(PySeq.Newest(s, Min(n, bound)))
  {
    ReversedHead(PySeq.Newest(s, bound), n);
    NewestOfNewest(s, bound, n);
  }

  class Log {
    var globalRing: seq<Event>
    var symbolRings: map<string, seq<Event>>
    var pipelineRing: seq<Trace>
    var pipelineCursor: nat
    /** Everything ever emitted. */
    ghost var events: seq<Event>
    ghost var traces: seq<Trace>

    ghost predicate Valid()
      reads this
    {
      && globalRing == PySeq.Newest(events, MAX_GLOBAL)
      && RingsHold(symbolRings, events)
      && pipelineRing == PySeq.Newest(traces, MAX_TRACES)
      && pipelineCursor == |traces|
    }

    constructor ()
      ensures Valid() && events == [] && traces == []
    {
      globalRing, symbolRings, pipelineRing, pipelineCursor := [], map[], [], 0;
      events, traces := [], [];
    }

    /** `emit`. */
    method EmitEvent(symbol: string, gate: string, passed: bool)
      requires Valid()
      modifies this
      ensures Valid()
      ensures events == old(events) + [Event(Symbols.Upper(symbol), gate, passed)] && traces == old(traces)
      ensures globalRing == PySeq.Newest(events, 500)
      ensures var s := Symbols.Upper(symbol); s in symbolRings && symbolRings[s] == PySeq.Newest(Of(events, s), 200)
    {
      var e := Event(Symbols.Upper(symbol), gate, passed);
      PySeq.NewestAppend(events, [e], MAX_GLOBAL);
      RingsStep(symbolRings, events, e);
      globalRing := PySeq.Newest(globalRing + [e], MAX_GLOBAL);
      var ring := if e.symbol in symbolRings then symbolRings[e.symbol] else [];
      symbolRings := symbolRings[e.symbol := PySeq.Newest(ring + [e], MAX_PER_SYMBOL)];
      events := events + [e];
      assert RingHolds(symbolRings, events, e.symbol);
    }

    /** `emit_pipeline_trace`. */
    method EmitPipelineTrace(t: Trace)
      requires Valid()
      modifies this
      ensures Valid()
      ensures traces == old(traces) + [t] && events == old(events)
      ensures pipelineRing == PySeq.Newest(traces, 300) && pipelineCursor == |traces|
    {
      PySeq.NewestAppend(traces, [t], MAX_TRACES);
      pipelineRing := PySeq.Newest(pipelineRing + [t], MAX_TRACES);
      pipelineCursor := pipelineCursor + 1;
      traces := traces + [t];
    }

    /** The first locked read of a poll. */
    method ReadCursor() returns (current: nat, total: nat)
      requires Valid()
      ensures current == |traces| && total == |PySeq.Newest(traces, MAX_TRACES)|
    {
      current, total := pipelineCursor, |pipelineRing|;
    }

    /** The rest of a poll: `seen` is what had been emitted when the first read happened. */
    method FinishPoll(since: int, current: nat, total: nat, limit: int, ghost seen: seq<Trace>) returns (r: seq<Trace>)
      requires Valid() && seen <= traces
      requires current == |seen| && total == |PySeq.Newest(seen, MAX_TRACES)|
      ensures r == Polled(seen, traces, since, limit)
    {
      if since >= current { return []; }
      var newCount := current - since;
      var items := pipelineRing;
      var newItems := PySeq.Tail(items, Min(newCount, total));
      r := PySeq.Tail(newItems, limit);
    }

    /** `pipeline_traces_since` when nothing is emitted meanwhile. */
    method PipelineTracesSince(since: int, limit: int) returns (r: seq<Trace>, next: nat)
      requires Valid()
      ensures next == |traces| && r == traces[|traces| - Given(|traces|, since, limit)..]
    {
      var current, total := ReadCursor();
      r := FinishPoll(since, current, total, limit, traces);
      next := current;
      PollIsNewest(traces, since, limit);
    }

    /** `recent_for_symbol`: newest first. */
    method RecentForSymbol(symbol: string, limit: int) returns (r: seq<Event>)
      requires Valid()
      ensures r == PySeq.Head(PySeq.Reversed(PySeq.Newest(Of(events, Symbols.Upper(symbol)), MAX_PER_SYMBOL)), limit)
      ensures limit >= 0 ==>
        r == PySeq.Reversed(PySeq.Newest(Of(events, Symbols.Upper(symbol)), Min(limit, MAX_PER_SYMBOL)))
    {
      var s := Symbols.Upper(symbol);
      if limit >= 0 { RecentIsNewest(Of(events, s), limit, MAX_PER_SYMBOL); }
      assert RingHolds(symbolRings, events, s);
      if s !in symbolRings { return []; }
      r := PySeq.Head(PySeq.Reversed(symbolRings[s]), limit);
    }

    /** `per_symbol_summary`: one entry for every symbol ever heard of. */
    method PerSymbolSummary() returns (r: map<string, Summary>)
      requires Valid()
      ensures forall s :: s in r <==> Of(events, s) != []
      ensures forall s :: s in r ==> SummaryHolds(r[s], events, s)
    {
      r := map[];
      var rest := symbolRings.Keys;
      while rest != {}
        invariant rest <= symbolRings.Keys && r.Keys == symbolRings.Keys - rest
        invariant forall s :: s in r ==> SummaryHolds(r[s], events, s)
        decreases |rest|
      {
        var s :| s in rest;
        assert RingHolds(symbolRings, events, s);
        var u := Summarise(symbolRings[s]);
        r, rest := r[s := u], rest - {s};
      }
      assert r.Keys == symbolRings.Keys;
      forall s ensures RingHolds(symbolRings, events, s) && (s in r <==> Of(events, s) != []) {
        assert RingHolds(symbolRings, events, s);
      }
    }
  }
}
