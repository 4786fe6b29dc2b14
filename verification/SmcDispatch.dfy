/** The SMC desk's event queue and analyst dispatch: deduplication, one run at a time, cooldown. */
module SmcDispatch {
  import opened Wrappers
  import PySeq

  datatype Item = Item(event: string, symbol: string)

  const CAPACITY: nat := 256
  const TRIGGERS: set<string> := {"zone_approaching", "sweep_detected", "zone_invalidated", "new_zone_detected"}

  function SymbolsOf(items: seq<Item>): (r: seq<string>)
    ensures |r| == |items| && forall k :: 0 <= k < |r| ==> r[k] == items[k].symbol
  {
    seq(|items|, k requires 0 <= k < |items| => items[k].symbol)
  }

  /** What the service object holds. */
  datatype Intake = Intake(queue: seq<Item>, enqueued: set<string>, lastRun: map<string, real>)
  {
    predicate Accepts(event: string, symbol: string) {
      event in TRIGGERS && symbol !in enqueued && |queue| < CAPACITY
    }

    /** The two effects of an accepted event, in the order they happen. */
    function Put(item: Item): Intake { this.(queue := queue + [item]) }

    function Mark(symbol: string): Intake { this.(enqueued := enqueued + {symbol}) }

    function Release(symbol: string): Intake { this.(enqueued := enqueued - {symbol}) }

    function Last(symbol: string): real {
      if symbol in lastRun then lastRun[symbol] else 0.0
    }
  }

  class SmcDeskService {
    const cooldown: real
    var queue: seq<Item>
    var enqueued: set<string>
    var lastRun: map<string, real>
    var ready: bool

    ghost function View(): Intake
      reads this
    {
      Intake(queue, enqueued, lastRun)
    }

    constructor (cooldown: real)
      ensures this.cooldown == cooldown && View() == Intake([], {}, map[]) && !ready
    {
      this.cooldown, queue, enqueued, lastRun, ready := cooldown, [], {}, map[], false;
    }

    /** What the interleavings see of the service when no callback runs and the loop is in a phase. */
    ghost function At(phase: Phase, now: real): Desk
      reads this
    {
      Desk(View(), None, phase, now, [], [], [], [])
    }

    /** `_on_scanner_event`: one pending event per symbol; a full queue drops the event without
        blocking the symbol. */
    method OnScannerEvent(event: string, symbol: string)
      modifies this`queue, this`enqueued
      ensures View() ==
        if old(View()).Accepts(event, symbol) then old(View()).Put(Item(event, symbol)).Mark(symbol) else old(View())
      ensures View() == AfterMark(AfterPut(old(At(Idle, 0.0)), event, symbol)).intake
    {
      if event !in TRIGGERS { return; }
      if symbol in enqueued { return; }
      if |queue| >= CAPACITY { return; }
      queue := queue + [Item(event, symbol)];
      enqueued := enqueued + {symbol};
    }

    /** The dispatch loop, up to the item it waits for. */
    method Take() returns (item: Item)
      requires queue != []
      modifies this`queue
      ensures [item] + queue == old(queue)
      ensures View() == AfterTake(old(At(Idle, 0.0))).intake && AfterTake(old(At(Idle, 0.0))).phase == Holding(item)
    {
      item := queue[0];
      queue := queue[1..];
    }

    /** The rest of one turn of the dispatch loop, up to the analyst run if there is one. */
    method Dispatch(item: Item, now: real) returns (runs: bool)
      modifies this`enqueued, this`lastRun
      ensures runs <==> ready && now - old(View()).Last(item.symbol) >= cooldown
      ensures View() == (var v := old(View()).Release(item.symbol);
        if runs then v.(lastRun := v.lastRun[item.symbol := now]) else v)
      ensures var d := AfterDecide(AfterRelease(old(At(Holding(item), now))), Settings(cooldown, ready));
        View() == d.intake && (runs <==> d.phase == Running(item)) && (!runs <==> d.phase == Idle)
    {
      enqueued := enqueued - {item.symbol};
      var last := if item.symbol in lastRun then lastRun[item.symbol] else 0.0;
      if now - last < cooldown { return false; }
      if !ready { return false; }
      lastRun := lastRun[item.symbol := now];
      runs := true;
    }
  }

  // ---- Interleavings ----

  /** Where the dispatch loop stands. */
  datatype Phase = Idle | Holding(item: Item) | Released(item: Item) | Running(item: Item)

  datatype Start = Start(symbol: string, at: real)

  /** The callback of the scanner thread runs beside the loop: `marking` is a symbol whose event
      it has put in the queue without having marked it yet. The rest is history. */
  datatype Desk = Desk(
    intake: Intake, marking: Option<string>, phase: Phase, clock: real,
    accepted: seq<Item>, taken: seq<Item>, starts: seq<Start>, finishes: seq<real>)

  datatype Settings = Settings(cooldown: real, ready: bool)

  /** Event is a callback that is not interrupted; Put and Mark are its two halves. */
  datatype Step =
    | Event(event: string, symbol: string)
    | Put(event: string, symbol: string) | Mark
    | Take | Release | Decide | Finish | Tick(dt: real)

  function AfterPut(d: Desk, event: string, symbol: string): Desk {
    if d.marking.Some? || !d.intake.Accepts(event, symbol) then d
    else
      d.(intake := d.intake.Put(Item(event, symbol)), marking := Some(symbol),
         accepted := d.accepted + [Item(event, symbol)])
  }

  function AfterMark(d: Desk): Desk {
    if d.marking.None? then d else d.(intake := d.intake.Mark(d.marking.value), marking := None)
  }

  function AfterTake(d: Desk): Desk {
    var q := d.intake.queue;
    if !d.phase.Idle? || q == [] then d
    else d.(intake := d.intake.(queue := q[1..]), phase := Holding(q[0]), taken := d.taken + [q[0]])
  }

  function AfterRelease(d: Desk): Desk {
    if !d.phase.Holding? then d
    else d.(intake := d.intake.Release(d.phase.item.symbol), phase := Released(d.phase.item))
  }

  function AfterDecide(d: Desk, c: Settings): Desk {
    if !d.phase.Released? then d
    else
      var s := d.phase.item.symbol;
      if d.clock - d.intake.Last(s) < c.cooldown || !c.ready then d.(phase := Idle)
      else
        d.(intake := d.intake.(lastRun := d.intake.lastRun[s := d.clock]), phase := Running(d.phase.item),
           starts := d.starts + [Start(s, d.clock)])
  }

  function Next(d: Desk, c: Settings, step: Step): Desk {
    match step
    case Event(event, symbol) => if d.marking.Some? then d else AfterMark(AfterPut(d, event, symbol))
    case Put(event, symbol) => AfterPut(d, event, symbol)
    case Mark => AfterMark(d)
    case Take => AfterTake(d)
    case Release => AfterRelease(d)
    case Decide => AfterDecide(d, c)
    case Finish => if d.phase.Running? then d.(phase := Idle, finishes := d.finishes + [d.clock]) else d
    case Tick(dt) => if dt > 0.0 then d.(clock := d.clock + dt) else d
  }

  function Initial(clock: real): Desk {
    Desk(Intake([], {}, map[]), None, Idle, clock, [], [], [], [])
  }

  function Run(clock: real, c: Settings, steps: seq<Step>): Desk
    decreases |steps|
  {
    if steps == [] then Initial(clock) else Next(Run(clock, c, steps[..|steps| - 1]), c, steps[|steps| - 1])
  }

  // ---- The queue ----

  function Held(d: Desk): set<string> {
    if d.phase.Holding? then {d.phase.item.symbol} else {}
  }

  function Waiting(d: Desk): set<string> {
    PySeq.Elements(SymbolsOf(d.intake.queue)) + Held(d)
  }

  function Marking(d: Desk): set<string> {
    if d.marking.Some? then {d.marking.value} else {}
  }

  /** In every interleaving: bounded, one event per symbol, nothing waiting that a second event
      could join, and nothing accepted is lost or overtaken. */
  ghost predicate QueueOk(d: Desk) {
    && |d.intake.queue| <= CAPACITY
    && PySeq.Distinct(SymbolsOf(d.intake.queue))
    && (forall k :: 0 <= k < |d.intake.queue| ==> d.intake.queue[k].symbol !in Held(d))
    && Waiting(d) <= d.intake.enqueued + Marking(d)
    && d.accepted == d.taken + d.intake.queue
  }

  /** And if no callback is interrupted, exactly the waiting symbols are barred. */
  ghost predicate DedupExact(d: Desk) {
    d.marking.None? && d.intake.enqueued == Waiting(d)
  }

  lemma WaitingHas(d: Desk, k: nat)
    requires k < |d.intake.queue|
    ensures d.intake.queue[k].symbol in Waiting(d)
  {
    assert SymbolsOf(d.intake.queue)[k] in SymbolsOf(d.intake.queue);
  }

  lemma SymbolsAppend(items: seq<Item>, item: Item)
    ensures SymbolsOf(items + [item]) == SymbolsOf(items) + [item.symbol]
    ensures PySeq.Elements(SymbolsOf(items + [item])) == PySeq.Elements(SymbolsOf(items)) + {item.symbol}
  {
    PySeq.ElementsAppend(SymbolsOf(items), item.symbol);
    assert SymbolsOf(items + [item]) == SymbolsOf(items) + [item.symbol];
  }

  lemma SymbolsTake(items: seq<Item>)
    requires items != []
    ensures SymbolsOf(items)[1..] == SymbolsOf(items[1..])
    ensures PySeq.Elements(SymbolsOf(items)) == {items[0].symbol} + PySeq.Elements(SymbolsOf(items[1..]))
  {
    assert SymbolsOf(items) == [items[0].symbol] + SymbolsOf(items[1..]);
  }

  lemma PutKeepsQueue(d: Desk, event: string, symbol: string)
    requires QueueOk(d)
    ensures QueueOk(AfterPut(d, event, symbol))
    ensures d.marking.None? ==>
      Waiting(AfterPut(d, event, symbol)) == Waiting(d) + Marking(AfterPut(d, event, symbol))
  {
    var e := AfterPut(d, event, symbol);
    if e != d {
      SymbolsAppend(d.intake.queue, Item(event, symbol));
      assert symbol !in Waiting(d);
      forall k | 0 <= k < |d.intake.queue| ensures d.intake.queue[k].symbol != symbol { WaitingHas(d, k); }
    }
  }

  lemma RestIsDistinct(items: seq<Item>)
    requires items != [] && PySeq.Distinct(SymbolsOf(items))
    ensures PySeq.Distinct(SymbolsOf(items[1..]))
    ensures forall k :: 0 <= k < |items| - 1 ==> items[1..][k].symbol != items[0].symbol
  {
    var all, rest := SymbolsOf(items), SymbolsOf(items[1..]);
    assert forall k :: 0 <= k < |rest| ==> rest[k] == all[k + 1];
    forall k | 0 <= k < |items| - 1 ensures items[1..][k].symbol != items[0].symbol { assert all[0] != all[k + 1]; }
  }

  lemma TakeKeepsQueue(d: Desk)
    requires QueueOk(d)
    ensures QueueOk(AfterTake(d)) && Waiting(AfterTake(d)) == Waiting(d)
  {
    var q := d.intake.queue;
    if d.phase.Idle? && q != [] {
      SymbolsTake(q);
      RestIsDistinct(q);
      assert d.accepted == d.taken + [q[0]] + q[1..];
    }
  }

  lemma ReleaseKeepsQueue(d: Desk)
    requires QueueOk(d)
    ensures QueueOk(AfterRelease(d)) && Waiting(AfterRelease(d)) == Waiting(d) - Held(d)
  {
    if d.phase.Holding? {
      forall s | s in SymbolsOf(d.intake.queue) ensures s !in Held(d) {
        var k :| 0 <= k < |d.intake.queue| && d.intake.queue[k].symbol == s;
      }
    }
  }

  lemma StepKeepsQueue(d: Desk, c: Settings, step: Step)
    requires QueueOk(d)
    ensures QueueOk(Next(d, c, step))
    ensures DedupExact(d) && !step.Put? ==> DedupExact(Next(d, c, step))
  {
    match step
    case Event(event, symbol) => PutKeepsQueue(d, event, symbol);
    case Put(event, symbol) => PutKeepsQueue(d, event, symbol);
    case Mark =>
    case Take => TakeKeepsQueue(d);
    case Release => ReleaseKeepsQueue(d);
    case Decide =>
    case Finish =>
    case Tick(dt) =>
  }

  lemma {:induction false} QueueInEveryRun(clock: real, c: Settings, steps: seq<Step>)
    ensures QueueOk(Run(clock, c, steps))
    ensures (forall k :: 0 <= k < |steps| ==> !steps[k].Put?) ==> DedupExact(Run(clock, c, steps))
    decreases |steps|
  {
    if steps != [] {
      var init := steps[..|steps| - 1];
      QueueInEveryRun(clock, c, init);
      StepKeepsQueue(Run(clock, c, init), c, steps[|steps| - 1]);
      assert (forall k :: 0 <= k < |steps| ==> !steps[k].Put?) ==> forall k :: 0 <= k < |init| ==> !init[k].Put?;
    }
  }

  /** As long as no callback has been interrupted, an event is let in exactly if it is a trigger,
      none of its symbol is waiting or being taken, and there is room; and then it is last in line. */
  lemma AcceptedIff(clock: real, c: Settings, steps: seq<Step>, event: string, symbol: string)
    requires forall k :: 0 <= k < |steps| ==> !steps[k].Put?
    ensures var d := Run(clock, c, steps);
      Next(d, c, Event(event, symbol)).accepted ==
        d.accepted + (if event in {"zone_approaching", "sweep_detected", "zone_invalidated", "new_zone_detected"}
                         && symbol !in Waiting(d) && |d.intake.queue| < 256
                      then [Item(event, symbol)] else [])
  {
    QueueInEveryRun(clock, c, steps);
  }

  // ---- The runs ----

  /** Runs start and finish in turn, never two at once, and never too soon after another run of
      the same symbol; a symbol that has not run yet counts as having run at time zero. */
  ghost predicate RunsOk(d: Desk, c: Settings) {
    && |d.finishes| == |d.starts| - (if d.phase.Running? then 1 else 0)
    && InTurn(d.starts, d.finishes, d.clock)
    && Spaced(d.starts, c.cooldown)
  }

  ghost predicate InTurn(starts: seq<Start>, finishes: seq<real>, clock: real) {
    && (forall i :: 0 <= i < |starts| ==> starts[i].at <= clock)
    && (forall i :: 0 <= i < |starts| && i < |finishes| ==> starts[i].at <= finishes[i] <= clock)
    && (forall i, j :: 0 <= i < |finishes| && i < j < |starts| ==> finishes[i] <= starts[j].at)
  }

  ghost predicate Spaced(starts: seq<Start>, cooldown: real) {
    && (forall i :: 0 <= i < |starts| ==> starts[i].at >= cooldown)
    && (forall i, j :: 0 <= i < j < |starts| && starts[i].symbol == starts[j].symbol ==>
          starts[j].at - starts[i].at >= cooldown)
  }

  /** The dictionary of last runs knows the latest start of every symbol. */
  ghost predicate LastKnown(d: Desk, c: Settings) {
    && (forall i :: 0 <= i < |d.starts| ==>
          d.starts[i].symbol in d.intake.lastRun && d.starts[i].at <= d.intake.lastRun[d.starts[i].symbol])
    && (forall s :: s in d.intake.lastRun ==> c.cooldown <= d.intake.lastRun[s] <= d.clock)
  }

  lemma DecideKeepsRuns(d: Desk, c: Settings)
    requires RunsOk(d, c) && LastKnown(d, c)
    ensures RunsOk(AfterDecide(d, c), c) && LastKnown(AfterDecide(d, c), c)
  {
    if d.phase.Released? {
      var s := d.phase.item.symbol;
      if d.clock - d.intake.Last(s) >= c.cooldown && c.ready {
        StartSpaced(d, c, s);
        StartKnown(d, c, s);
      }
    }
  }

  lemma StartSpaced(d: Desk, c: Settings, s: string)
    requires Spaced(d.starts, c.cooldown) && LastKnown(d, c) && d.clock - d.intake.Last(s) >= c.cooldown
    ensures Spaced(d.starts + [Start(s, d.clock)], c.cooldown)
  {
    var after := d.starts + [Start(s, d.clock)];
    forall i, j | 0 <= i < j < |after| && after[i].symbol == after[j].symbol
      ensures after[j].at - after[i].at >= c.cooldown
    {
      assert after[i] == d.starts[i];
    }
  }

  lemma StartKnown(d: Desk, c: Settings, s: string)
    requires LastKnown(d, c) && d.clock - d.intake.Last(s) >= c.cooldown
    ensures LastKnown(d.(intake := d.intake.(lastRun := d.intake.lastRun[s := d.clock]),
                         starts := d.starts + [Start(s, d.clock)]), c)
  {
  }

  lemma TickKeepsRuns(d: Desk, c: Settings, dt: real)
    requires RunsOk(d, c) && LastKnown(d, c)
    ensures RunsOk(Next(d, c, Tick(dt)), c) && LastKnown(Next(d, c, Tick(dt)), c)
  {
  }

  lemma QuietStep(d: Desk, c: Settings, step: Step)
    requires !step.Decide? && !step.Finish? && !step.Tick?
    ensures var e := Next(d, c, step);
      && d.starts == e.starts && d.finishes == e.finishes && d.clock == e.clock
      && d.phase.Running? == e.phase.Running? && d.intake.lastRun == e.intake.lastRun
  {
  }

  /** Nothing the runs are judged by has changed. */
  lemma SameRuns(d: Desk, e: Desk, c: Settings)
    requires RunsOk(d, c) && LastKnown(d, c)
    requires d.starts == e.starts && d.finishes == e.finishes && d.clock == e.clock
    requires d.phase.Running? == e.phase.Running? && d.intake.lastRun == e.intake.lastRun
    ensures RunsOk(e, c) && LastKnown(e, c)
  {
  }

  lemma FinishKeepsRuns(d: Desk, c: Settings)
    requires RunsOk(d, c) && LastKnown(d, c)
    ensures RunsOk(Next(d, c, Finish), c) && LastKnown(Next(d, c, Finish), c)
  {
  }

  lemma StepKeepsRuns(d: Desk, c: Settings, step: Step)
    requires RunsOk(d, c) && LastKnown(d, c)
    ensures RunsOk(Next(d, c, step), c) && LastKnown(Next(d, c, step), c)
  {
    if step.Decide? {
      DecideKeepsRuns(d, c);
    } else if step.Finish? {
      FinishKeepsRuns(d, c);
    } else if step.Tick? {
      TickKeepsRuns(d, c, step.dt);
    } else {
      QuietStep(d, c, step);
      SameRuns(d, Next(d, c, step), c);
    }
  }

  /** Runs never overlap and two runs of one symbol start at least the cooldown apart, whatever
      the interleaving, interrupted callbacks included. */
  lemma {:induction false} RunsInEveryRun(clock: real, c: Settings, steps: seq<Step>)
    ensures RunsOk(Run(clock, c, steps), c) && LastKnown(Run(clock, c, steps), c)
    decreases |steps|
  {
    if steps != [] {
      RunsInEveryRun(clock, c, steps[..|steps| - 1]);
      StepKeepsRuns(Run(clock, c, steps[..|steps| - 1]), c, steps[|steps| - 1]);
    }
  }

  /** Every remembered run is one that was started. */
  ghost predicate LastStarted(d: Desk) {
    forall s :: s in d.intake.lastRun ==> Start(s, d.intake.lastRun[s]) in d.starts
  }

  lemma StepKeepsStarted(d: Desk, c: Settings, step: Step)
    requires LastStarted(d)
    ensures LastStarted(Next(d, c, step))
  {
    if step.Decide? {
      var e := AfterDecide(d, c);
      forall s | s in e.intake.lastRun ensures Start(s, e.intake.lastRun[s]) in e.starts {}
    }
  }

  lemma {:induction false} StartedInEveryRun(clock: real, c: Settings, steps: seq<Step>)
    ensures LastStarted(Run(clock, c, steps))
    decreases |steps|
  {
    if steps != [] {
      StartedInEveryRun(clock, c, steps[..|steps| - 1]);
      StepKeepsStarted(Run(clock, c, steps[..|steps| - 1]), c, steps[|steps| - 1]);
    }
  }

  /** In every interleaving the loop analyses the symbol it has taken exactly if the desk is ready,
      the loop clock has reached the cooldown, and every earlier run of the symbol is that old. */
  lemma RunStartsIff(clock: real, c: Settings, steps: seq<Step>, item: Item)
    requires Run(clock, c, steps).phase == Released(item)
    ensures var d := Run(clock, c, steps);
      var e := Next(d, c, Decide);
      && (e.phase == Running(item) <==>
            c.ready && d.clock >= c.cooldown
            && forall i :: 0 <= i < |d.starts| && d.starts[i].symbol == item.symbol ==> d.clock - d.starts[i].at >= c.cooldown)
      && e.starts == d.starts + (if e.phase == Running(item) then [Start(item.symbol, d.clock)] else [])
  {
    RunsInEveryRun(clock, c, steps);
    StartedInEveryRun(clock, c, steps);
    var d, s := Run(clock, c, steps), item.symbol;
    if s in d.intake.lastRun {
      var i :| 0 <= i < |d.starts| && d.starts[i] == Start(s, d.intake.lastRun[s]);
    }
  }

  // ---- An interrupted callback ----

  /** The symbol is barred although nothing of it is waiting. */
  predicate Stuck(d: Desk, symbol: string) {
    symbol in d.intake.enqueued && symbol !in Waiting(d) && d.marking != Some(symbol)
  }

  function Continue(d: Desk, c: Settings, steps: seq<Step>): Desk
    decreases |steps|
  {
    if steps == [] then d else Next(Continue(d, c, steps[..|steps| - 1]), c, steps[|steps| - 1])
  }

  lemma StepStaysStuck(d: Desk, c: Settings, step: Step, symbol: string)
    requires QueueOk(d) && Stuck(d, symbol)
    ensures Stuck(Next(d, c, step), symbol)
    ensures forall item :: item in Next(d, c, step).accepted && item.symbol == symbol ==> item in d.accepted
  {
    match step
    case Event(event, s) => PutKeepsQueue(d, event, s);
    case Put(event, s) => PutKeepsQueue(d, event, s);
    case Mark =>
    case Take => TakeKeepsQueue(d);
    case Release => ReleaseKeepsQueue(d);
    case Decide =>
    case Finish =>
    case Tick(dt) =>
  }

  /** A stuck symbol is never analysed again: nothing that follows lets an event of it in. */
  lemma {:induction false} StuckForever(d: Desk, c: Settings, steps: seq<Step>, symbol: string)
    requires QueueOk(d) && Stuck(d, symbol)
    ensures var e := Continue(d, c, steps);
      QueueOk(e) && Stuck(e, symbol) && forall item :: item in e.accepted && item.symbol == symbol ==> item in d.accepted
    decreases |steps|
  {
    if steps != [] {
      var mid := Continue(d, c, steps[..|steps| - 1]);
      StuckForever(d, c, steps[..|steps| - 1], symbol);
      StepKeepsQueue(mid, c, steps[|steps| - 1]);
      StepStaysStuck(mid, c, steps[|steps| - 1], symbol);
    }
  }

  /** A step leaves a symbol stuck that was not before exactly if it marks the symbol when its
      event is no longer waiting. */
  lemma SticksIff(d: Desk, c: Settings, step: Step, symbol: string)
    requires QueueOk(d) && !Stuck(d, symbol)
    ensures Stuck(Next(d, c, step), symbol) <==> step.Mark? && d.marking == Some(symbol) && symbol !in Waiting(d)
  {
    match step
    case Event(event, s) => PutKeepsQueue(d, event, s);
    case Put(event, s) => PutKeepsQueue(d, event, s);
    case Mark =>
    case Take => TakeKeepsQueue(d);
    case Release => ReleaseKeepsQueue(d);
    case Decide =>
    case Finish =>
    case Tick(dt) =>
  }

  /** The callback still finds its event waiting, if the step is the second half of one. */
  predicate MarkFindsEvent(d: Desk, step: Step) {
    step.Mark? && d.marking.Some? ==> d.marking.value in Waiting(d)
  }

  predicate EveryMarkFindsEvent(clock: real, c: Settings, steps: seq<Step>)
    decreases |steps|
  {
    steps == [] ||
    (EveryMarkFindsEvent(clock, c, steps[..|steps| - 1]) &&
     MarkFindsEvent(Run(clock, c, steps[..|steps| - 1]), steps[|steps| - 1]))
  }

  ghost predicate NothingStuck(d: Desk) {
    forall symbol :: !Stuck(d, symbol)
  }

  lemma StepFreesNothing(d: Desk, c: Settings, step: Step)
    requires QueueOk(d)
    ensures NothingStuck(Next(d, c, step)) <==> NothingStuck(d) && MarkFindsEvent(d, step)
  {
    if NothingStuck(d) {
      forall s ensures Stuck(Next(d, c, step), s) <==> step.Mark? && d.marking == Some(s) && s !in Waiting(d) {
        SticksIff(d, c, step, s);
      }
      if !MarkFindsEvent(d, step) { assert Stuck(Next(d, c, step), d.marking.value); }
    } else {
      var s :| Stuck(d, s);
      StepStaysStuck(d, c, step, s);
    }
  }

  /** In any interleaving no symbol is stuck exactly if every callback found its event still
      waiting when it came to mark it. */
  lemma {:induction false} NothingStuckIff(clock: real, c: Settings, steps: seq<Step>)
    ensures NothingStuck(Run(clock, c, steps)) <==> EveryMarkFindsEvent(clock, c, steps)
    decreases |steps|
  {
    if steps == [] {
      assert forall s :: !Stuck(Initial(clock), s);
    } else {
      var init := steps[..|steps| - 1];
      NothingStuckIff(clock, c, init);
      QueueInEveryRun(clock, c, init);
      StepFreesNothing(Run(clock, c, init), c, steps[|steps| - 1]);
    }
  }

  /** Between callbacks the dedup set is exactly the waiting symbols as long as nothing is stuck. */
  lemma DedupExactIff(d: Desk)
    requires QueueOk(d) && d.marking.None?
    ensures DedupExact(d) <==> NothingStuck(d)
  {
    if NothingStuck(d) {
      forall s | s in d.intake.enqueued ensures s in Waiting(d) { assert !Stuck(d, s); }
    }
  }

  /** From any desk that accepts an event while its loop is idle with nothing queued, the loop can
      finish with the event before the callback marks it. */
  lemma InterruptedCallbackSticks(d: Desk, c: Settings, event: string, symbol: string)
    requires QueueOk(d) && d.marking.None? && d.phase.Idle? && d.intake.queue == []
    requires d.intake.Accepts(event, symbol)
    ensures Stuck(Continue(d, c, [Put(event, symbol), Take, Release, Mark]), symbol)
  {
    var first := [Put(event, symbol)];
    var second, third, fourth := first + [Take], first + [Take, Release], first + [Take, Release, Mark];
    assert first == [] + first && third == second + [Release] && fourth == third + [Mark];
    ContinueStep(d, c, [], Put(event, symbol));
    ContinueStep(d, c, first, Take);
    ContinueStep(d, c, second, Release);
    ContinueStep(d, c, third, Mark);
    assert d.intake.queue + [Item(event, symbol)] == [Item(event, symbol)];
    assert fourth == [Put(event, symbol), Take, Release, Mark];
  }

  lemma ContinueStep(d: Desk, c: Settings, steps: seq<Step>, step: Step)
    ensures Continue(d, c, steps + [step]) == Next(Continue(d, c, steps), c, step)
  {
    assert (steps + [step])[..|steps|] == steps;
  }
}
