/** The broadcaster's select loop as a program: what it does with each event and each
    coalescing tick, and that every iteration is a run of the step machine. */
module Broadcaster {
  import opened Clock
  import opened Vehicle
  import opened MergeModel
  import opened DataUpdate
  import opened Broadcast

  // One wake-up of the loop. An event or a coalescing tick comes with the clock when it decides, what Latest returns if it pushes,
  // the clock when it sends, and whether the consumer's buffer takes the frame. A keepalive
  // tick sends a hello whose fate is ignored; a closed channel or a cancelled context ends it.
  datatype Input =
    | EventIn(at: Time, latest: Snapshot, sendAt: Time, ok: bool)
    | TickIn(at: Time, latest: Snapshot, sendAt: Time, ok: bool)
    | HelloTick
    | Closed

  predicate MayPush(i: Input) {
    i.EventIn? || i.TickIn?
  }

  datatype Loop = Loop(pending: bool, lastPush: Time, pushed: nat, dropped: nat, alive: bool)

  function Push(c: Setup, l: Loop, i: Input): Loop
    requires MayPush(i)
  {
    if ColumnsOf(c.numerals, i.latest).None? then l
    else if i.ok then l.(lastPush := i.sendAt, pushed := l.pushed + 1)
    else l.(lastPush := i.sendAt, dropped := l.dropped + 1, alive := false)
  }

  function PushAndClear(c: Setup, l: Loop, i: Input): Loop
    requires MayPush(i)
  {
    var after := Push(c, l, i);
    if after.alive then after.(pending := false) else after
  }

  predicate Early(c: Setup, l: Loop, i: Input)
    requires MayPush(i)
  {
    c.minInterval > 0 && Sub(i.at, l.lastPush) < c.minInterval
  }

  function Handle(c: Setup, l: Loop, i: Input): Loop {
    match i
    case EventIn(_, _, _, _) => if Early(c, l, i) then l.(pending := true) else PushAndClear(c, l, i)
    case TickIn(_, _, _, _) => if l.pending && !Early(c, l, i) then PushAndClear(c, l, i) else l
    case HelloTick => l
    case Closed => l.(alive := false)
  }

  // Inputs are handled until the consumer is dropped.
  function HandleAll(c: Setup, l: Loop, inputs: seq<Input>): Loop {
    if inputs == [] then l
    else
      var before := HandleAll(c, l, Front(inputs));
      if before.alive then Handle(c, before, Last(inputs)) else before
  }

  // The loop is its passes one after another, until it is over; then nothing more is handled.
  lemma {:induction false} LoopIsItsPasses(c: Setup, l: Loop, a: seq<Input>, b: seq<Input>)
    ensures HandleAll(c, l, a + b) == HandleAll(c, HandleAll(c, l, a), b)
    ensures |b| == 1 && l.alive ==> HandleAll(c, l, b) == Handle(c, l, b[0])
    ensures !l.alive ==> HandleAll(c, l, b) == l
  {
    if b == [] {
      assert a + b == a;
    } else {
      LoopIsItsPasses(c, l, a, Front(b));
      assert Front(a + b) == a + Front(b) && Last(a + b) == Last(b);
    }
  }

  class Consumer {
    const setup: Setup
    var pending: bool
    var lastPush: Time
    var framesPushed: nat
    var framesDropped: nat

    constructor (setup: Setup)
      ensures this.setup == setup && Value(true) == Loop(false, ZERO, 0, 0, true)
    {
      this.setup, pending, lastPush, framesPushed, framesDropped := setup, false, ZERO, 0, 0;
    }

    ghost function Value(alive: bool): Loop
      reads this
    {
      Loop(pending, lastPush, framesPushed, framesDropped, alive)
    }

    method PushSnap(i: Input) returns (alive: bool)
      requires MayPush(i)
      modifies this
      ensures Value(alive) == Push(setup, old(Value(true)), i)
    {
      var _, cols := DataColumnsFor(setup.numerals, i.latest);
      if cols.None? {
        return true;
      }
      lastPush := i.sendAt;
      if i.ok {
        framesPushed := framesPushed + 1;
        return true;
      }
      framesDropped := framesDropped + 1;
      return false;
    }

    // One pass of the select.
    method Wake(i: Input) returns (alive: bool)
      modifies this
      ensures Value(alive) == Handle(setup, old(Value(true)), i)
    {
      if !MayPush(i) {
        return i.HelloTick?;
      }
      var early := setup.minInterval > 0 && Sub(i.at, lastPush) < setup.minInterval;
      if i.EventIn? && early {
        pending := true;
        return true;
      }
      if i.TickIn? && (!pending || early) {
        return true;
      }
      alive := PushSnap(i);
      if alive {
        pending := false;
      }
    }

    method Broadcast(inputs: seq<Input>) returns (alive: bool)
      modifies this
      ensures Value(alive) == HandleAll(setup, old(Value(true)), inputs)
    {
      alive := true;
      for k := 0 to |inputs|
        invariant Value(alive) == HandleAll(setup, old(Value(true)), inputs[..k])
      {
        assert Front(inputs[..k + 1]) == inputs[..k] && Last(inputs[..k + 1]) == inputs[k];
        if alive {
          alive := Wake(inputs[k]);
        }
      }
      assert inputs[..|inputs|] == inputs;
    }
  }

  // ---------- Iterations are runs of the step machine ----------

  predicate Matches(s: System, l: Loop) {
    s.pending == l.pending && s.lastPush == l.lastPush && (s.at.Stopped? <==> !l.alive)
  }

  lemma Extend(c: Setup, s: System, ms: seq<Move>, m: Move)
    requires Valid(c, s, ms) && Enabled(c, Reached(c, s, ms), m)
    ensures Valid(c, s, ms + [m]) && Reached(c, s, ms + [m]) == Next(c, Reached(c, s, ms), m)
  {
    OneMove(c, Reached(c, s, ms), m);
    Chain(c, s, ms, [m]);
  }

  predicate AboutToSend(s: System, l: Loop, i: Input)
    requires MayPush(i)
  {
    s.at == Sending(i.latest) && s.now == i.sendAt && s.pending == l.pending && s.lastPush == l.lastPush
  }

  // From the decision to push: other merges land, then Latest is read.
  lemma ReadIsRun(c: Setup, s: System, before: seq<Move>, l: Loop, i: Input) returns (ms: seq<Move>)
    requires MayPush(i) && Valid(c, s, before) && Reached(c, s, before).at == Reading
    requires Reached(c, s, before).now == i.at <= i.sendAt
    requires Reached(c, s, before).pending == l.pending && Reached(c, s, before).lastPush == l.lastPush
    ensures Valid(c, s, ms) && AboutToSend(Reached(c, s, ms), l, i)
    ensures Reached(c, s, ms).pushes == Reached(c, s, before).pushes
  {
    Extend(c, s, before, MergeTo(i.latest));
    var m1 := before + [MergeTo(i.latest)];
    Extend(c, s, m1, ReadLatest);
    var m2 := m1 + [ReadLatest];
    Extend(c, s, m2, Wait(i.sendAt - i.at));
    ms := m2 + [Wait(i.sendAt - i.at)];
  }

  lemma SendIsRun(c: Setup, s: System, before: seq<Move>, l: Loop, i: Input) returns (ms: seq<Move>)
    requires MayPush(i) && l.alive && Valid(c, s, before) && AboutToSend(Reached(c, s, before), l, i)
    ensures Valid(c, s, ms) && Matches(Reached(c, s, ms), PushAndClear(c, l, i))
    ensures |Reached(c, s, ms).pushes| - |Reached(c, s, before).pushes| == PushAndClear(c, l, i).pushed - l.pushed
    ensures PushAndClear(c, l, i).dropped - l.dropped == if Reached(c, s, ms).at.Stopped? then 1 else 0
  {
    Extend(c, s, before, Send(i.ok));
    ms := before + [Send(i.ok)];
    if Push(c, l, i).alive {
      Extend(c, s, ms, ClearPending);
      ms := ms + [ClearPending];
    }
  }

  // One iteration of the loop, with the merges that land during it. The two counters count the
  // pushes made and the consumer dropped.
  lemma IterationIsRun(c: Setup, s: System, l: Loop, i: Input) returns (ms: seq<Move>)
    requires s.at.Waiting? && l.alive && Matches(s, l)
    requires MayPush(i) ==> s.now <= i.at <= i.sendAt
    requires (i.EventIn? ==> s.queued > 0) && (i.TickIn? ==> c.minInterval > 0)
    ensures Valid(c, s, ms) && Matches(Reached(c, s, ms), Handle(c, l, i))
    ensures |Reached(c, s, ms).pushes| - |s.pushes| == Handle(c, l, i).pushed - l.pushed
    ensures Handle(c, l, i).dropped - l.dropped == if Reached(c, s, ms).at.Stopped? && !i.Closed? then 1 else 0
  {
    ms := [];
    if i.Closed? {
      Extend(c, s, ms, Close);
      ms := ms + [Close];
    }
    if MayPush(i) {
      Extend(c, s, ms, Wait(i.at - s.now));
      ms := ms + [Wait(i.at - s.now)];
      if i.EventIn? {
        Extend(c, s, ms, TakeEvent);
        ms := ms + [TakeEvent];
        Extend(c, s, ms, Decide);
        ms := ms + [Decide];
      } else {
        Extend(c, s, ms, CoalesceTick);
        ms := ms + [CoalesceTick];
      }
      if Reached(c, s, ms).at == Reading {
        ms := ReadIsRun(c, s, ms, l, i);
        ms := SendIsRun(c, s, ms, l, i);
      }
    }
  }
}
