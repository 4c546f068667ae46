/** The one-slot mailbox between the control loop and the gripper thread, as the interleaved steps of
    one producer and one worker. */
module GripperMailbox {
  import opened Wrappers
  import opened JointMath
  import opened Scalars

  /** The widths accepted at start-up; an opening limit below zero leaves an empty range. */
  datatype Range = Range(closed: real, open: real)

  function RangeFor(openWidth: real, closedWidth: real, maxWidth: real): Range {
    var open := Min(openWidth, maxWidth);
    Range(Max(0.0, Min(closedWidth, open)), open)
  }

  function Clipped(r: Range, width: real): real { Max(r.closed, Min(r.open, width)) }

  function WidthFromAction(r: Range, action: real): real {
    r.closed + Max(0.0, Min(1.0, action)) * (r.open - r.closed)
  }

  /** A clipped width is the nearest one between closed and open, or the closed width when the opening
      limit is below zero. */
  lemma ClippedInRange(openWidth: real, closedWidth: real, maxWidth: real, width: real)
    ensures var r := RangeFor(openWidth, closedWidth, maxWidth);
      && (r.closed <= r.open <==> Min(openWidth, maxWidth) >= 0.0)
      && (if r.closed <= r.open
          then Clipped(r, width) == if width < r.closed then r.closed else if width > r.open then r.open else width
          else Clipped(r, width) == r.closed)
  {
  }

  /** A normalized action runs linearly from closed at zero to open at one and is held there beyond. */
  lemma ActionSpansRange(r: Range, action: real)
    requires r.closed <= r.open
    ensures action <= 0.0 ==> WidthFromAction(r, action) == r.closed
    ensures action >= 1.0 ==> WidthFromAction(r, action) == r.open
    ensures 0.0 <= action <= 1.0 ==> WidthFromAction(r, action) - r.closed == action * (r.open - r.closed)
  {
  }

  const DEADBAND := 0.002

  // ---- Steps --------------------------------------------------------------------------

  /** A mailbox item: a width, or `None` for the sentinel that ends the worker. */
  type Item = Option<real>

  datatype Producer = Free | Draining(item: Item) | Putting(item: Item)

  datatype Worker = Waiting | Moving(width: real) | Done

  /** The shared queue with both threads' positions, and what has happened: every item put, the
      positions in `puts` the worker took, and the widths it moved to. */
  datatype Box = Box(
    queue: seq<Item>,
    producer: Producer,
    worker: Worker,
    lastWidth: Option<real>,
    overflowed: bool,
    puts: seq<Item>,
    taken: seq<nat>,
    moved: seq<real>
  )

  const FRESH := Box([], Free, Waiting, None, false, [], [], [])

  datatype Event = Request(width: real) | Close | Drain | Put | Take | Finish

  predicate Skips(r: Range, s: Box, width: real) {
    s.lastWidth.Some? && Abs(Clipped(r, width) - s.lastWidth.value) < DEADBAND
  }

  /** One atomic step; a step that its thread is not at leaves the state as it is. Emptying the queue
      and refilling it are two steps, so the worker may take an item between them. */
  function Step(r: Range, s: Box, e: Event): Box {
    match e
    case Request(width) =>
      if s.producer.Free? && !Skips(r, s, width) then s.(producer := Draining(Some(Clipped(r, width)))) else s
    case Close =>
      if s.producer.Free? then s.(producer := Draining(None)) else s
    case Drain =>
      if s.producer.Draining? then s.(queue := if |s.queue| > 0 then s.queue[1..] else [], producer := Putting(s.producer.item)) else s
    case Put =>
      if !s.producer.Putting? then s else
      if |s.queue| >= 1 then s.(overflowed := true, producer := Free) else
      s.(queue := s.queue + [s.producer.item], producer := Free, puts := s.puts + [s.producer.item],
         lastWidth := if s.producer.item.Some? then s.producer.item else s.lastWidth)
    case Take =>
      if !s.worker.Waiting? || |s.queue| == 0 then s else
      s.(queue := s.queue[1..], taken := s.taken + [PositionOfFirst(s)],
         worker := if s.queue[0].Some? then Moving(s.queue[0].value) else Done)
    case Finish =>
      if s.worker.Moving? then s.(worker := Waiting, moved := s.moved + [s.worker.width]) else s
  }

  /** The position in `puts` of the item at the head of the queue. */
  function PositionOfFirst(s: Box): nat {
    if |s.puts| >= |s.queue| then |s.puts| - |s.queue| else 0
  }

  function Run(r: Range, events: seq<Event>): Box {
    if |events| == 0 then FRESH else Step(r, Run(r, events[..|events| - 1]), events[|events| - 1])
  }

  // ---- What every interleaving keeps --------------------------------------------------

  /** The widths among some items, in order. */
  function Widths(items: seq<Item>): seq<real> {
    if |items| == 0 then [] else
    var last := items[|items| - 1];
    Widths(items[..|items| - 1]) + (if last.Some? then [last.value] else [])
  }

  function Picked(puts: seq<Item>, taken: seq<nat>): seq<Item>
    requires forall i :: 0 <= i < |taken| ==> taken[i] < |puts|
  {
    seq(|taken|, i requires 0 <= i < |taken| => puts[taken[i]])
  }

  ghost predicate InRange(r: Range, width: real) { r.closed <= width <= Max(r.open, r.closed) }

  ghost predicate ItemOk(r: Range, s: Box, item: Item) {
    item.Some? ==> InRange(r, item.value) && (s.lastWidth.Some? ==> Abs(item.value - s.lastWidth.value) >= DEADBAND)
  }

  /** Positions taken, in order and without repetition. */
  ghost predicate Increasing(taken: seq<nat>, count: nat) {
    && (forall i :: 0 <= i < |taken| ==> taken[i] < count)
    && (forall i, j :: 0 <= i < j < |taken| ==> taken[i] < taken[j])
  }

  ghost predicate QueueOk(s: Box) {
    && |s.queue| <= 1 && !s.overflowed
    && (s.producer.Putting? ==> s.queue == [])
    && (|s.queue| == 1 ==>
          |s.puts| > 0 && s.queue[0] == s.puts[|s.puts| - 1] && (|s.taken| > 0 ==> s.taken[|s.taken| - 1] < |s.puts| - 1))
    && (|s.queue| == 0 && !s.producer.Putting? && |s.puts| > 0 ==> |s.taken| > 0 && s.taken[|s.taken| - 1] == |s.puts| - 1)
  }

  ghost predicate AllInRange(r: Range, puts: seq<Item>) {
    forall i :: 0 <= i < |puts| && puts[i].Some? ==> InRange(r, puts[i].value)
  }

  ghost predicate Spaced(ws: seq<real>) {
    forall i :: 0 < i < |ws| ==> Abs(ws[i] - ws[i - 1]) >= DEADBAND
  }

  function LastOf(ws: seq<real>): Option<real> { if |ws| == 0 then None else Some(ws[|ws| - 1]) }

  ghost predicate WidthsOk(r: Range, s: Box) {
    && AllInRange(r, s.puts) && Spaced(Widths(s.puts)) && s.lastWidth == LastOf(Widths(s.puts))
    && (!s.producer.Free? ==> ItemOk(r, s, s.producer.item))
  }

  ghost predicate WorkerOk(s: Box) {
    && Increasing(s.taken, |s.puts|)
    && Widths(Picked(s.puts, s.taken)) == s.moved + (if s.worker.Moving? then [s.worker.width] else [])
    && SentinelIsLast(s.puts, s.taken, s.worker.Done?)
  }

  /** The sentinel, if taken at all, was taken last and ended the worker. */
  ghost predicate SentinelIsLast(puts: seq<Item>, taken: seq<nat>, done: bool)
    requires Increasing(taken, |puts|)
  {
    && (forall i :: 0 <= i < |taken| && puts[taken[i]].None? ==> i == |taken| - 1 && done)
    && (done ==> |taken| > 0 && puts[taken[|taken| - 1]].None?)
  }

  lemma SentinelExtends(puts: seq<Item>, taken: seq<nat>, k: nat)
    requires Increasing(taken, |puts|) && SentinelIsLast(puts, taken, false)
    requires k < |puts| && Increasing(taken + [k], |puts|)
    ensures SentinelIsLast(puts, taken + [k], puts[k].None?)
  {
  }

  ghost predicate BoxOk(r: Range, s: Box) { QueueOk(s) && WidthsOk(r, s) && WorkerOk(s) }

  lemma WidthsExtend(items: seq<Item>, item: Item)
    ensures Widths(items + [item]) == Widths(items) + (if item.Some? then [item.value] else [])
  {
  }

  lemma PickedExtend(puts: seq<Item>, taken: seq<nat>, next: nat)
    requires Increasing(taken, |puts|) && next < |puts|
    ensures Picked(puts, taken + [next]) == Picked(puts, taken) + [puts[next]]
  {
  }

  lemma PickedPrefix(puts: seq<Item>, more: seq<Item>, taken: seq<nat>)
    requires Increasing(taken, |puts|)
    ensures Picked(puts + more, taken) == Picked(puts, taken)
  {
  }

  lemma StepKeepsQueue(r: Range, s: Box, e: Event)
    requires QueueOk(s) && Increasing(s.taken, |s.puts|)
    ensures QueueOk(Step(r, s, e))
  {
  }

  lemma StepKeepsWidths(r: Range, s: Box, e: Event)
    requires QueueOk(s) && WidthsOk(r, s)
    ensures WidthsOk(r, Step(r, s, e))
  {
    hide Widths;
    hide Spaced;
    hide AllInRange;
    if e.Put? && s.producer.Putting? {
      PutKeepsWidths(r, s);
    } else {
      OtherStepKeepsWidths(r, s, e);
    }
  }

  lemma OtherStepKeepsWidths(r: Range, s: Box, e: Event)
    requires QueueOk(s) && WidthsOk(r, s) && !(e.Put? && s.producer.Putting?)
    ensures WidthsOk(r, Step(r, s, e))
  {
    hide Widths;
    hide Spaced;
    hide AllInRange;
    hide LastOf;
    var next := Step(r, s, e);
    assert next.puts == s.puts && next.lastWidth == s.lastWidth;
  }

  lemma PutKeepsWidths(r: Range, s: Box)
    requires QueueOk(s) && WidthsOk(r, s) && s.producer.Putting?
    ensures WidthsOk(r, Step(r, s, Put))
  {
    hide Widths;
    hide AllInRange;
    WidthsExtend(s.puts, s.producer.item);
    RangeExtends(r, s.puts, s.producer.item);
  }

  lemma RangeExtends(r: Range, puts: seq<Item>, item: Item)
    requires AllInRange(r, puts) && (item.Some? ==> InRange(r, item.value))
    ensures AllInRange(r, puts + [item])
  {
  }

  lemma PutKeepsWorker(r: Range, s: Box)
    requires QueueOk(s) && WorkerOk(s) && s.producer.Putting?
    ensures WorkerOk(Step(r, s, Put))
  {
    PickedPrefix(s.puts, [s.producer.item], s.taken);
    hide Widths;
    hide Picked;
  }

  lemma TakeKeepsWorker(r: Range, s: Box)
    requires QueueOk(s) && WorkerOk(s) && s.worker.Waiting? && |s.queue| > 0
    ensures WorkerOk(Step(r, s, Take))
  {
    var k := |s.puts| - 1;
    PickedExtend(s.puts, s.taken, k);
    WidthsExtend(Picked(s.puts, s.taken), s.puts[k]);
    assert Increasing(s.taken + [k], |s.puts|);
    SentinelExtends(s.puts, s.taken, k);
    hide SentinelIsLast;
    hide Increasing;
    hide Picked;
    var next := Step(r, s, Take);
    assert next.taken == s.taken + [k] && next.puts == s.puts && next.moved == s.moved;
    assert next.worker == if s.puts[k].Some? then Moving(s.puts[k].value) else Done;
    hide Step;
    hide QueueOk;
    hide Widths;
  }

  lemma StepKeepsOk(r: Range, s: Box, e: Event)
    requires BoxOk(r, s)
    ensures BoxOk(r, Step(r, s, e))
  {
    StepKeepsQueue(r, s, e);
    StepKeepsWidths(r, s, e);
    if e.Put? && s.producer.Putting? {
      PutKeepsWorker(r, s);
    } else if e.Take? && s.worker.Waiting? && |s.queue| > 0 {
      TakeKeepsWorker(r, s);
    }
    hide QueueOk;
    hide WidthsOk;
    hide Widths;
    hide Picked;
    hide Increasing;
  }

  /** Over every interleaving the queue holds at most one item and a put never finds it full; the
      widths put are in range and at least the deadband apart; the worker takes items in the order
      they were put, and what it has moved to is exactly what it took. */
  lemma {:induction false} EveryRunIsOk(r: Range, events: seq<Event>)
    ensures BoxOk(r, Run(r, events))
  {
    if |events| > 0 {
      EveryRunIsOk(r, events[..|events| - 1]);
      StepKeepsOk(r, Run(r, events[..|events| - 1]), events[|events| - 1]);
    }
  }

  /** A free producer skips a request exactly when it is within the deadband of the width put last. */
  lemma SkippedIffClose(r: Range, events: seq<Event>, width: real)
    requires Run(r, events).producer.Free?
    ensures var s := Run(r, events); var ws := Widths(s.puts);
      Step(r, s, Request(width)) == s <==> |ws| > 0 && Abs(Clipped(r, width) - ws[|ws| - 1]) < DEADBAND
  {
    hide Run;
    hide Widths;
    hide BoxOk;
    hide QueueOk;
    hide WorkerOk;
    hide Clipped;
    EveryRunIsOk(r, events);
    BoxRemembersLast(r, Run(r, events));
  }

  lemma BoxRemembersLast(r: Range, s: Box)
    requires BoxOk(r, s)
    ensures s.lastWidth == LastOf(Widths(s.puts))
  {
    hide QueueOk;
    hide WorkerOk;
    hide Widths;
  }

  /** Whatever the worker takes is the newest item put. */
  lemma TakesTheNewest(r: Range, events: seq<Event>)
    requires Run(r, events).worker.Waiting? && |Run(r, events).queue| > 0
    ensures var s := Run(r, events);
      Step(r, s, Take).taken == s.taken + [|s.puts| - 1]
  {
    hide Run;
    hide WidthsOk;
    hide WorkerOk;
    EveryRunIsOk(r, events);
  }

  // ---- What becomes of the last item --------------------------------------------------

  function RunFrom(r: Range, s: Box, events: seq<Event>): Box {
    if |events| == 0 then s else Step(r, RunFrom(r, s, events[..|events| - 1]), events[|events| - 1])
  }

  /** The worker's own measure: it is finished with the mailbox when this is zero. */
  function WorkLeft(s: Box): nat {
    if s.worker.Done? then 0 else 2 * |s.queue| + (if s.worker.Moving? then 1 else 0)
  }

  /** Whichever thread is at work, either the worker has nothing to do or its next step is enabled and
      brings it nearer to that. */
  lemma WorkerProgress(r: Range, events: seq<Event>)
    ensures var s := Run(r, events);
      WorkLeft(s) > 0 ==>
        && (Step(r, s, Take) != s || Step(r, s, Finish) != s)
        && (Step(r, s, Take) == s || WorkLeft(Step(r, s, Take)) < WorkLeft(s))
        && (Step(r, s, Finish) == s || WorkLeft(Step(r, s, Finish)) < WorkLeft(s))
  {
    hide Run;
  }

  /** Once the producer is free and sends nothing more, a worker that has emptied the mailbox has moved
      to the width put last, or, if that was the sentinel, has stopped having taken the sentinel last. */
  lemma LastItemIsServed(r: Range, events: seq<Event>)
    requires var s := Run(r, events);
      s.producer.Free? && |s.puts| > 0 && WorkLeft(s) == 0 && !s.worker.Done?
    ensures var s := Run(r, events); var last := s.puts[|s.puts| - 1];
      last.Some? && |s.moved| > 0 && s.moved[|s.moved| - 1] == last.value
  {
    hide Run;
    hide WidthsOk;
    EveryRunIsOk(r, events);
    var s := Run(r, events);
    var n := |s.taken| - 1;
    assert s.taken[n] == |s.puts| - 1;
    assert Picked(s.puts, s.taken) == Picked(s.puts, s.taken[..n]) + [s.puts[|s.puts| - 1]];
    WidthsExtend(Picked(s.puts, s.taken[..n]), s.puts[|s.puts| - 1]);
    assert Widths(Picked(s.puts, s.taken)) == s.moved;
  }

  lemma SentinelIsServed(r: Range, events: seq<Event>)
    requires var s := Run(r, events);
      s.producer.Free? && |s.puts| > 0 && WorkLeft(s) == 0 && s.puts[|s.puts| - 1].None?
    ensures var s := Run(r, events);
      && s.worker.Done? && |s.taken| > 0
      && forall i :: 0 <= i < |s.taken| ==> s.taken[i] < |s.puts| && (s.puts[s.taken[i]].None? <==> i == |s.taken| - 1)
  {
    EveryRunIsOk(r, events);
    if !Run(r, events).worker.Done? { LastItemIsServed(r, events); }
    hide Run;
  }

  /** A worker that has stopped never moves again, whatever the producer does. */
  lemma {:induction false} StoppedForGood(r: Range, s: Box, events: seq<Event>)
    requires s.worker.Done?
    ensures RunFrom(r, s, events).worker.Done? && RunFrom(r, s, events).moved == s.moved && RunFrom(r, s, events).taken == s.taken
  {
    if |events| > 0 { StoppedForGood(r, s, events[..|events| - 1]); }
  }

  /** From the moment the sentinel is in the queue, a worker left alone finishes at most the move in
      hand, takes the sentinel and stops within two steps of its own. */
  lemma ShutdownTakesTwoSteps(r: Range, events: seq<Event>)
    requires var s := Run(r, events); s.queue == [None] && !s.worker.Done?
    ensures var s := Run(r, events); var after := RunFrom(r, s, [Finish, Take]);
      && after.worker.Done? && after.queue == []
      && after.moved == s.moved + (if s.worker.Moving? then [s.worker.width] else [])
      && after.taken == s.taken + [|s.puts| - 1]
  {
    hide Run;
    hide RunFrom;
    hide Step;
    hide WidthsOk;
    hide WorkerOk;
    EveryRunIsOk(r, events);
    var s := Run(r, events);
    TwoSteps(r, s, Finish, Take);
    FinishesMove(r, s);
    TakesSentinel(r, Step(r, s, Finish));
  }

  lemma TwoSteps(r: Range, s: Box, first: Event, second: Event)
    ensures RunFrom(r, s, [first, second]) == Step(r, Step(r, s, first), second)
  {
    hide Step;
    RunExtends(r, s, [], first);
    RunExtends(r, s, [first], second);
    assert [] + [first] == [first] && [first] + [second] == [first, second] && RunFrom(r, s, []) == s;
    hide RunFrom;
  }

  lemma FinishesMove(r: Range, s: Box)
    requires !s.worker.Done?
    ensures var next := Step(r, s, Finish);
      && next.worker.Waiting? && next.moved == s.moved + (if s.worker.Moving? then [s.worker.width] else [])
      && next.queue == s.queue && next.taken == s.taken && next.puts == s.puts
  {
  }

  lemma TakesSentinel(r: Range, s: Box)
    requires s.worker.Waiting? && s.queue == [None] && |s.puts| > 0
    ensures var next := Step(r, s, Take);
      next.worker.Done? && next.queue == [] && next.moved == s.moved && next.taken == s.taken + [|s.puts| - 1]
  {
  }

  // ---- The controller's own calls -----------------------------------------------------

  /** The producer's side of the controller. Each method runs its steps with nothing in between; the
      interleavings are those of `Step`. */
  class AsyncGripperController {
    const range: Range
    var queue: seq<Item>
    var lastWidth: Option<real>

    constructor (openWidth: real, closedWidth: real, maxWidth: real)
      ensures range == RangeFor(openWidth, closedWidth, maxWidth) && queue == [] && lastWidth == None
    {
      range := RangeFor(openWidth, closedWidth, maxWidth);
      queue, lastWidth := [], None;
    }

    /** The producer's view of a whole state. */
    ghost predicate Shows(s: Box)
      reads this
    {
      s.producer.Free? && s.queue == queue && s.lastWidth == lastWidth
    }

    method CommandNormalized(action: real, ghost s: Box) returns (ghost s': Box)
      requires BoxOk(range, s) && Shows(s)
      modifies this
      ensures s' == RunFrom(range, s, [Request(WidthFromAction(range, action)), Drain, Put]) && BoxOk(range, s') && Shows(s')
    {
      s' := CommandWidth(WidthFromAction(range, action), s);
    }

    method CommandWidth(width: real, ghost s: Box) returns (ghost s': Box)
      requires BoxOk(range, s) && Shows(s)
      modifies this
      ensures s' == RunFrom(range, s, [Request(width), Drain, Put]) && BoxOk(range, s') && Shows(s')
      ensures if old(lastWidth).Some? && Abs(Clipped(range, width) - old(lastWidth).value) < DEADBAND
              then s' == s && queue == old(queue) && lastWidth == old(lastWidth)
              else s'.puts == s.puts + [Some(Clipped(range, width))] && queue == [Some(Clipped(range, width))]
                   && lastWidth == Some(Clipped(range, width))
    {
      hide RunFrom;
      hide BoxOk;
      s' := RunFrom(range, s, [Request(width), Drain, Put]);
      ThreeSteps(range, s, Request(width), Drain, Put);
      var clipped := Clipped(range, width);
      if lastWidth.Some? && Abs(clipped - lastWidth.value) < DEADBAND {
        return;
      }
      if |queue| > 0 {
        queue := queue[1..];
      }
      assert |queue| == 0;
      queue := queue + [Some(clipped)];
      lastWidth := Some(clipped);
    }

    method Close(ghost s: Box) returns (ghost s': Box)
      requires BoxOk(range, s) && Shows(s)
      modifies this
      ensures s' == RunFrom(range, s, [Event.Close, Drain, Put]) && BoxOk(range, s') && Shows(s') && queue == [None]
    {
      hide RunFrom;
      hide BoxOk;
      s' := RunFrom(range, s, [Event.Close, Drain, Put]);
      ThreeSteps(range, s, Event.Close, Drain, Put);
      if |queue| > 0 {
        queue := queue[1..];
      }
      queue := queue + [None];
    }
  }

  lemma ThreeSteps(r: Range, s: Box, first: Event, second: Event, third: Event)
    requires BoxOk(r, s)
    ensures RunFrom(r, s, [first, second, third]) == Step(r, Step(r, Step(r, s, first), second), third)
    ensures BoxOk(r, RunFrom(r, s, [first, second, third])) && |s.queue| <= 1
  {
    hide Step;
    hide BoxOk;
    hide RunFrom;
    QueueIsShort(r, s);
    StepKeepsOk(r, s, first);
    StepKeepsOk(r, Step(r, s, first), second);
    StepKeepsOk(r, Step(r, Step(r, s, first), second), third);
    TwoSteps(r, s, first, second);
    RunExtends(r, s, [first, second], third);
    assert [first, second] + [third] == [first, second, third];
  }

  lemma QueueIsShort(r: Range, s: Box)
    requires BoxOk(r, s)
    ensures |s.queue| <= 1
  {
    hide WidthsOk;
    hide WorkerOk;
  }

  lemma RunExtends(r: Range, s: Box, events: seq<Event>, e: Event)
    ensures RunFrom(r, s, events + [e]) == Step(r, RunFrom(r, s, events), e)
  {
  }
}
