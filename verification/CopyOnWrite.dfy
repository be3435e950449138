/** Copy-on-write over whole runs of the heap merger: whatever is merged, and in whatever
    order, no object a reader could already hold is ever written. */
module CopyOnWrite {
  import opened Clock
  import opened Vehicle
  import opened MergeModel
  import opened SnapshotHeap
  import opened Merger

  datatype Call = PollCall(snap: SnapRef, now: Time, ok: bool) | FrameCall(snap: SnapRef, now: Time, ok: bool)

  ghost function EventOf(c: Call): Event
    reads c.snap.state, LocOf(c.snap.state), c.snap.live
  {
    if c.PollCall? then PollEvent(ValueOf(c.snap), c.now) else FrameEvent(ValueOf(c.snap), c.now)
  }

  // One poll: no telemetry object is in the frame.
  method ApplyPoll(m: Merger, snap: SnapRef, now: Time, ok: bool, staleAfter: Duration, ghost e: Event)
    requires e == PollEvent(ValueOf(snap), now)
    modifies m`snap, m`gpsAt, m`odoAt, m`offlineCount, m`offlineDriving, m`subs, m.StoreFrame()
    ensures m.Model() == Step(m.Wiring(staleAfter), old(m.Model()), e)
  {
    var _, _ := m.MergePoll(snap, staleAfter, now, ok);
  }

  // One frame likewise, although its position object may come to be served.
  method ApplyFrame(m: Merger, snap: SnapRef, now: Time, ok: bool, staleAfter: Duration, ghost e: Event)
    requires e == FrameEvent(ValueOf(snap), now)
    modifies m`snap, m`gpsAt, m`odoAt, m`subs, m.drive, m.wake, m.integrity, m.session, m.StoreFrame()
    ensures m.Model() == Step(m.Wiring(staleAfter), old(m.Model()), e)
  {
    var _, _, _, _ := m.MergeStreamDetect(snap, staleAfter, now, ok);
  }

  // Nor is any snapshot that existed before read differently after it.
  method PollKeeps(m: Merger, snap: SnapRef, now: Time, ok: bool, staleAfter: Duration, ghost e: Event)
    requires e == PollEvent(ValueOf(snap), now)
    modifies m`snap, m`gpsAt, m`odoAt, m`offlineCount, m`offlineDriving, m`subs, m.StoreFrame()
    ensures m.Model() == Step(m.Wiring(staleAfter), old(m.Model()), e)
    ensures forall s: SnapRef :: old(allocated(s)) ==> ValueOf(s) == old(ValueOf(s))
  {
    ApplyPoll(m, snap, now, ok, staleAfter, e);
  }

  method FrameKeeps(m: Merger, snap: SnapRef, now: Time, ok: bool, staleAfter: Duration, ghost e: Event)
    requires e == FrameEvent(ValueOf(snap), now)
    modifies m`snap, m`gpsAt, m`odoAt, m`subs, m.drive, m.wake, m.integrity, m.session, m.StoreFrame()
    ensures m.Model() == Step(m.Wiring(staleAfter), old(m.Model()), e)
    ensures forall s: SnapRef :: old(allocated(s)) ==> ValueOf(s) == old(ValueOf(s))
  {
    ApplyFrame(m, snap, now, ok, staleAfter, e);
  }

  // One call into the merger, poll or frame.
  method Apply(m: Merger, c: Call, staleAfter: Duration, ghost e: Event)
    requires EventOf(c) == e
    modifies m`snap, m`gpsAt, m`odoAt, m`offlineCount, m`offlineDriving, m.drive, m.wake, m.integrity, m.session,
             m`subs, m.StoreFrame()
    ensures m.Model() == Step(m.Wiring(staleAfter), old(m.Model()), e)
    ensures forall s: SnapRef :: old(allocated(s)) ==> ValueOf(s) == old(ValueOf(s))
  {
    match c {
      case PollCall(snap, now, ok) => PollKeeps(m, snap, now, ok, staleAfter, e);
      case FrameCall(snap, now, ok) => FrameKeeps(m, snap, now, ok, staleAfter, e);
    }
  }

  // Any calls at all, from any state of the merger: it ends where the functional run ends, and
  // every snapshot that existed at the start - served ones, earlier ones, the callers' own -
  // still reads as it did.
  method RunCalls(m: Merger, calls: seq<Call>, staleAfter: Duration, ghost events: seq<Event>)
    requires |events| == |calls| && forall i :: 0 <= i < |calls| ==> EventOf(calls[i]) == events[i]
    modifies m`snap, m`gpsAt, m`odoAt, m`offlineCount, m`offlineDriving, m.drive, m.wake, m.integrity, m.session,
             m`subs, m.StoreFrame()
    ensures m.Model() == Run(m.Wiring(staleAfter), old(m.Model()), events)
    ensures forall s: SnapRef :: old(allocated(s)) ==> ValueOf(s) == old(ValueOf(s))
  {
    ghost var start := m.Model();
    for i := 0 to |calls|
      invariant m.Model() == Run(m.Wiring(staleAfter), start, events[..i])
      invariant forall s: SnapRef :: old(allocated(s)) ==> ValueOf(s) == old(ValueOf(s))
    {
      assert ValueOf(calls[i].snap) == old(ValueOf(calls[i].snap));
      Apply(m, calls[i], staleAfter, events[i]);
      RunExtends(m.Wiring(staleAfter), start, events, i);
    }
    assert events[..|calls|] == events;
  }

  lemma RunExtends(cfg: Config, start: Merge, es: seq<Event>, i: nat)
    requires i < |es|
    ensures Run(cfg, start, es[..i + 1]) == Step(cfg, Run(cfg, start, es[..i]), es[i])
  {
    assert Front(es[..i + 1]) == es[..i];
  }
}
