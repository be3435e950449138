/** The single writer of one vehicle's served snapshot. Every merge builds on a fresh clone,
    so no object a reader may hold is ever written; and each method takes exactly the step
    MergeModel describes. Every method is one lock-held region. */
module Merger {
  import opened Clock
  import opened Vehicle
  import opened Integrity
  import opened Trigger
  import opened MergeModel
  import opened AsofStore
  import opened SnapshotHeap

  const SUBSCRIBER_BUF := 4

  function Enqueued(queued: nat): nat {
    if queued < SUBSCRIBER_BUF then queued + 1 else queued
  }

  // Four events at most wait in a channel; one more is dropped.
  lemma FourSlots(queued: nat)
    ensures Enqueued(queued) == if queued < 4 then queued + 1 else queued
  {
  }

  // The change channels by handle, each with how many events it holds. Events carry no
  // payload, so only their number matters.
  type Channels = map<nat, nat>

  // Every channel after one event for all of them, or after none.
  function Notified(subs: Channels, changed: bool): Channels {
    if changed then map ch | ch in subs :: Enqueued(subs[ch]) else subs
  }

  // A change adds one event to every channel that has room; without one nothing moves.
  lemma NotifiedInWords(subs: Channels, changed: bool)
    ensures var after := Notified(subs, changed);
            && after.Keys == subs.Keys
            && forall ch <- subs :: after[ch] == if changed && subs[ch] < 4 then subs[ch] + 1 else subs[ch]
  {
  }

  class Merger {
    const id: string
    const metric: Metric
    const drive: DriveDebouncer
    const wake: WakeDebouncer
    const integrity: IntegrityCounters?
    const session: SessionCounters?
    const onAsOf: MarkStore?
    var snap: SnapRef
    var subs: Channels
    var nextSub: nat
    var offlineCount: nat
    var offlineDriving: bool
    var gpsAt: Time
    var odoAt: Time

    ghost function Model(): Merge
      reads this, drive, wake, snap.state, LocOf(snap.state), snap.live
    {
      Merge(ValueOf(snap), gpsAt, odoAt, offlineCount, offlineDriving, drive.Value(), wake.Value())
    }

    ghost function Wiring(staleAfter: Duration): Config {
      Config(staleAfter, integrity != null, metric)
    }

    ghost function StoreFrame(): set<object> {
      if onAsOf == null then {} else {onAsOf, onAsOf.disk}
    }

    // Resumes from the persisted mark.
    constructor (id: string, floor: Time, onAsOf: MarkStore?, integrity: IntegrityCounters?,
                 session: SessionCounters?, metric: Metric)
      ensures Model() == NewMerge(floor)
      ensures fresh(drive) && fresh(wake) && subs == map[]
      ensures this.id == id && this.onAsOf == onAsOf && this.metric == metric
      ensures this.integrity == integrity && this.session == session
      ensures snap == SnapRef(null, null, ZERO, ZERO, {}, floor)
    {
      this.id, this.onAsOf, this.integrity, this.session, this.metric := id, onAsOf, integrity, session, metric;
      drive := new DriveDebouncer();
      wake := new WakeDebouncer();
      snap := SnapRef(null, null, ZERO, ZERO, {}, floor);
      subs, nextSub, offlineCount, offlineDriving, gpsAt, odoAt := map[], 0, 0, false, ZERO, ZERO;
    }

    method Latest() returns (s: SnapRef)
      ensures s == snap
    {
      s := snap;
    }

    // Handles are never reused.
    ghost predicate FreshHandles()
      reads this`subs, this`nextSub
    {
      forall ch <- subs :: ch < nextSub
    }

    method Subscribe() returns (ch: nat)
      requires FreshHandles()
      modifies this`subs, this`nextSub
      ensures FreshHandles() && ch !in old(subs) && subs == old(subs)[ch := 0]
    {
      ch := nextSub;
      nextSub := nextSub + 1;
      subs := subs[ch := 0];
    }

    // The consumer takes an event off its channel.
    method Receive(ch: nat) returns (got: bool)
      modifies this`subs
      ensures got == (ch in old(subs) && old(subs)[ch] > 0)
      ensures subs == if got then old(subs)[ch := old(subs)[ch] - 1] else old(subs)
    {
      got := ch in subs && subs[ch] > 0;
      if got {
        subs := subs[ch := subs[ch] - 1];
      }
    }

    // A cancelled subscription.
    method Unsubscribe(ch: nat)
      modifies this`subs
      ensures subs == old(subs) - {ch}
    {
      subs := subs - {ch};
    }

    // One event to every subscriber, dropped where the buffer is full, never blocking.
    method NotifyAll()
      modifies this`subs
      ensures subs == Notified(old(subs), true)
    {
      ghost var start := subs;
      var todo := subs.Keys;
      while todo != {}
        invariant todo <= start.Keys
        invariant subs == map ch | ch in start :: if ch in todo then start[ch] else Enqueued(start[ch])
        decreases |todo|
      {
        var ch :| ch in todo;
        if subs[ch] < SUBSCRIBER_BUF {
          subs := subs[ch := subs[ch] + 1];
        }
        todo := todo - {ch};
      }
    }

    // Ages out a stalled stream: drops its field ownership and, when the poll is stale too,
    // takes an online car offline, in place on the new clone. g is what was given.
    method AgeOut(given: SnapRef, staleAfter: Duration, now: Time, ghost g: Snapshot) returns (present: Fields)
      requires g == ValueOf(given)
      modifies Cell(given.state)`v
      ensures StateValue(given.state) == Degraded(Wiring(staleAfter), g, now)
      ensures present == if Stalled(Wiring(staleAfter), given.streamFields, now) then {} else given.streamPresent
    {
      present := given.streamPresent;
      if staleAfter > 0 && !IsZero(given.streamFields) {
        if Sub(now, given.streamFields) > staleAfter {
          present := {};
          var pollStale := IsZero(given.fetchedAt) || Sub(now, given.fetchedAt) > staleAfter;
          if pollStale && given.state != null && given.state.v.power == PowerOnline {
            given.state.v := given.state.v.(power := PowerOffline);
          }
        }
      }
    }

    // The snapshot to store: stamped with the one emitted time, its mark persisted, aged out.
    method Stamp(given: SnapRef, staleAfter: Duration, now: Time, ok: bool, ghost g: Snapshot) returns (next: SnapRef)
      requires g == ValueOf(given)
      modifies Cell(given.state)`v, StoreFrame()
      ensures ValueOf(next) == Committed(Wiring(staleAfter), snap.asOf, g, now)
      ensures next.state == given.state && next.live == given.live
      ensures snap.asOf <= next.asOf
      ensures onAsOf != null ==> onAsOf.Value() == Advanced(old(onAsOf.Value()), id, next.asOf, now, ok)
    {
      var times := [snap.asOf, given.fetchedAt, given.streamFields];
      var asOf := MaxTime(times);
      assert times[0] <= asOf;
      if onAsOf != null {
        onAsOf.Advance(id, asOf, now, ok);
      }
      var present := AgeOut(given, staleAfter, now, g);
      next := given.(asOf := asOf, streamPresent := present);
    }

    // Stores the merged snapshot and notifies subscribers on a change. served is what was
    // served before.
    method Commit(given: SnapRef, staleAfter: Duration, now: Time, ok: bool, ghost g: Snapshot, ghost served: Snapshot)
      returns (changed: bool)
      requires given.state != null ==> given.state != snap.state
      requires g == ValueOf(given) && served == ValueOf(snap)
      modifies this`snap, Cell(given.state)`v, this`subs, StoreFrame()
      ensures ValueOf(snap) == Committed(Wiring(staleAfter), served.asOf, g, now)
      ensures snap.state == given.state && snap.live == given.live
      ensures served.asOf <= snap.asOf
      ensures onAsOf != null ==> onAsOf.Value() == Advanced(old(onAsOf.Value()), id, snap.asOf, now, ok)
      ensures changed == StreamChanged(served, ValueOf(snap))
      ensures subs == Notified(old(subs), changed)
    {
      var next := Stamp(given, staleAfter, now, ok, g);
      assert ValueOf(snap) == served;
      changed := StreamChanged(ValueOf(snap), ValueOf(next));
      snap := next;
      if changed {
        NotifyAll();
      }
    }

    // Liveness of an offline report; writes the new clone in place. before is its state so far
    // and p what was served last.
    method ClassifyPollLiveness(st: StateObj, prev: SnapRef, ghost before: State, ghost p: Snapshot)
      requires prev.state != st && before == st.Value() && p == ValueOf(prev)
      modifies this`offlineCount, this`offlineDriving, st`v
      ensures var c := Classified(before.power, old(offlineCount), old(offlineDriving), p);
              st.Value() == before.(power := c.0) && offlineCount == c.1 && offlineDriving == c.2
    {
      if st.v.power != PowerOffline {
        offlineCount := 0;
        offlineDriving := false;
        return;
      }
      if offlineCount == 0 {
        offlineDriving := InDrive(if prev.state == null then GearUnknown else prev.state.v.gear);
      }
      offlineCount := offlineCount + 1;
      if !offlineDriving && offlineCount >= OFFLINE_SLEEP_CONFIRM_POLLS {
        st.v := st.v.(power := PowerSleep);
      }
    }

    // The poll's state on a fresh clone and the session to serve; while the stream is fresher
    // the fields it owns are copied back.
    method HoldStreamed(prev: SnapRef, poll: SnapRef, ghost p: Snapshot, ghost q: Snapshot)
      returns (st: StateObj?, live: LiveObj?, holdsLoc: bool, holdsOdo: bool)
      requires p == ValueOf(prev) && q == ValueOf(poll)
      ensures StateValue(st) == PollState(p, q) && (st != null ==> fresh(st))
      ensures LiveValue(live) == if StreamFresher(p, q) && p.live.Some? then p.live else q.live
      ensures holdsLoc == Holds(p, q, StreamLoc)
      ensures holdsOdo == Holds(p, q, StreamOdometer)
    {
      st := CloneState(poll.state);
      live := poll.live;
      holdsLoc, holdsOdo := false, false;
      if !IsZero(prev.streamFields) && After(prev.streamFields, poll.fetchedAt) && prev.state != null && st != null {
        CopyStreamed(st, prev.state, prev.streamPresent);
        if prev.live != null {
          live := prev.live;
        }
        holdsLoc := StreamLoc in prev.streamPresent;
        holdsOdo := StreamOdometer in prev.streamPresent;
      }
    }

    // Re-anchors the fields the poll serves itself. m is the merger before the poll, q the poll,
    // held its state after the copy-back.
    method AnchorPoll(poll: SnapRef, st: StateObj?, holdsLoc: bool, holdsOdo: bool,
                      ghost m: Merge, ghost q: Snapshot, ghost held: Option<State>)
      requires m.gpsAt == gpsAt && m.odoAt == odoAt && q.fetchedAt == poll.fetchedAt && held == StateValue(st)
      requires holdsLoc == Holds(m.snap, q, StreamLoc) && holdsOdo == Holds(m.snap, q, StreamOdometer)
      modifies this`gpsAt, this`odoAt
      ensures gpsAt == PollGpsAt(m, q, held) && odoAt == PollOdoAt(m, q, held)
    {
      if st != null {
        if !holdsLoc && st.loc != null {
          gpsAt := poll.fetchedAt;
        }
        if !holdsOdo && st.v.odometerMeters > 0 {
          odoAt := poll.fetchedAt;
        }
      }
    }

    // Everything of a poll's merge but the commit: the anchors, the offline episode, and the
    // snapshot to serve. held is the poll's state after the copy-back.
    method PreparePoll(poll: SnapRef, ghost m: Merge, ghost q: Snapshot) returns (out: SnapRef, ghost held: Option<State>)
      requires m == Model() && q == ValueOf(poll)
      modifies this`gpsAt, this`odoAt, this`offlineCount, this`offlineDriving
      ensures held == PollState(m.snap, q)
      ensures ValueOf(out) == PollOutOf(m, q, held)
      ensures out.state != null ==> fresh(out.state)
      ensures gpsAt == PollGpsAt(m, q, held) && odoAt == PollOdoAt(m, q, held)
      ensures (offlineCount, offlineDriving) == PollEpisode(m, held)
    {
      var st, live, holdsLoc, holdsOdo := HoldStreamed(snap, poll, m.snap, q);
      held := StateValue(st);
      AnchorPoll(poll, st, holdsLoc, holdsOdo, m, q, held);
      if st != null {
        ClassifyPollLiveness(st, snap, held.value, m.snap);
      }
      out := SnapRef(st, live, poll.fetchedAt, snap.streamFields, snap.streamPresent, poll.asOf);
    }

    method MergePoll(poll: SnapRef, staleAfter: Duration, now: Time, ok: bool)
      returns (out: SnapRef, ghost changed: bool)
      modifies this`snap, this`gpsAt, this`odoAt, this`offlineCount, this`offlineDriving, this`subs, StoreFrame()
      ensures Model() == PollStep(Wiring(staleAfter), old(Model()), old(ValueOf(poll)), now)
      ensures snap.state != null ==> fresh(snap.state)
      ensures out.state == snap.state && out.live == snap.live
      ensures old(snap.asOf) <= snap.asOf
      ensures onAsOf != null ==> onAsOf.Value() == Advanced(old(onAsOf.Value()), id, snap.asOf, now, ok)
      ensures changed == StreamChanged(old(ValueOf(snap)), ValueOf(snap))
      ensures subs == Notified(old(subs), changed)
    {
      ghost var held;
      ghost var m, q := Model(), ValueOf(poll);
      out, held := PreparePoll(poll, m, q);
      changed := Commit(out, staleAfter, now, ok, PollOutOf(m, q, held), m.snap);
    }

    // The integrity gate, with its counters.
    method GateFrame(frame: SnapRef, ghost staleAfter: Duration) returns (present: Fields, ghost reasons: seq<Reason>)
      modifies integrity
      ensures (present, reasons) == Gated(Wiring(staleAfter), Model(), ValueOf(frame))
      ensures integrity != null ==> integrity.Value() == CountedAll(old(integrity.Value()), reasons)
    {
      if integrity == null {
        return frame.streamPresent, [];
      }
      var rejected: seq<Reason>;
      present, rejected := GateStream(metric, StateValue(snap.state), StateValue(frame.state), frame.streamPresent,
                                      gpsAt, odoAt, frame.fetchedAt);
      integrity.IncAll(rejected);
      reasons := rejected;
    }

    // The session fields a frame carries, on a copy of the served session.
    method MergeLive(prev: LiveObj?, frame: LiveObj?, present: Fields) returns (live: LiveObj?)
      ensures LiveValue(live) == FrameLive(LiveValue(prev), LiveValue(frame), present)
      ensures live == prev || live == frame || fresh(live)
    {
      live := prev;
      var hasPower := StreamChargePower in present && frame != null && frame.v.powerKw != 0.0;
      var hasCurrent := StreamChargeCurrent in present && frame != null;
      var hasEnergy := StreamChargeEnergyIn in present && frame != null;
      if hasPower || hasCurrent || hasEnergy {
        if prev == null {
          return frame;
        }
        var merged := new LiveObj(prev.v);
        if hasPower {
          merged.v := merged.v.(powerKw := frame.v.powerKw);
        }
        if hasCurrent {
          merged.v := merged.v.(currentA := frame.v.currentA);
        }
        if hasEnergy {
          merged.v := merged.v.(totalChargedEnergy := frame.v.totalChargedEnergy);
        }
        live := merged;
      }
    }

    // The frame's state on a fresh object: a zero state when nothing is served yet, else a
    // clone of what is.
    method MergeState(prev: StateObj?, frame: StateObj?, present: Fields) returns (st: StateObj)
      ensures fresh(st) && st.Value() == FrameState(StateValue(prev), StateValue(frame), present)
    {
      if prev == null {
        st := new StateObj(ZERO_STATE, null);
        if frame != null {
          st.v := st.v.(power := frame.v.power);
          CopyStreamed(st, frame, present);
        }
        return;
      }
      var clone := CloneState(prev);
      st := clone;
      if frame != null {
        CopyStreamed(st, frame, present);
        if st.v.power == PowerUnknown || st.v.power == PowerOffline {
          st.v := st.v.(power := PowerOnline);
        }
      }
    }

    // Re-anchors the fields the gate admitted.
    method AnchorFrame(frame: SnapRef, present: Fields)
      modifies this`gpsAt, this`odoAt
      ensures gpsAt == if StreamLoc in present then frame.fetchedAt else old(gpsAt)
      ensures odoAt == if StreamOdometer in present then frame.fetchedAt else old(odoAt)
    {
      if StreamLoc in present {
        gpsAt := frame.fetchedAt;
      }
      if StreamOdometer in present {
        odoAt := frame.fetchedAt;
      }
    }

    // A frame's merge, given the presence the gate left. m is the merger before the frame, f
    // the frame.
    method MergeGated(frame: SnapRef, present: Fields, staleAfter: Duration, now: Time, ok: bool,
                      ghost m: Merge, ghost f: Snapshot)
      returns (out: SnapRef, ghost changed: bool)
      requires m == Model() && f == ValueOf(frame)
      modifies this`snap, this`gpsAt, this`odoAt, this`subs, StoreFrame()
      ensures Model() == MergeAdmitted(Wiring(staleAfter), m, f, present, now)
      ensures snap.state != null && fresh(snap.state)
      ensures out.state == snap.state && out.live == snap.live
      ensures m.snap.asOf <= snap.asOf
      ensures onAsOf != null ==> onAsOf.Value() == Advanced(old(onAsOf.Value()), id, snap.asOf, now, ok)
      ensures changed == StreamChanged(m.snap, ValueOf(snap))
      ensures subs == Notified(old(subs), changed)
    {
      out := PrepareFrame(frame, present, m, f);
      changed := Commit(out, staleAfter, now, ok, FrameOut(m.snap, f, present), m.snap);
    }

    // Everything of an admitted frame's merge but the commit.
    method PrepareFrame(frame: SnapRef, present: Fields, ghost m: Merge, ghost f: Snapshot) returns (out: SnapRef)
      requires m == Model() && f == ValueOf(frame)
      modifies this`gpsAt, this`odoAt
      ensures ValueOf(out) == FrameOut(m.snap, f, present)
      ensures out.state != null && fresh(out.state)
      ensures gpsAt == if StreamLoc in present then f.fetchedAt else m.gpsAt
      ensures odoAt == if StreamOdometer in present then f.fetchedAt else m.odoAt
    {
      AnchorFrame(frame, present);
      out := BuildFrame(frame, present, m.snap, f);
    }

    // The snapshot a frame hands to commit, on fresh objects.
    method BuildFrame(frame: SnapRef, present: Fields, ghost p: Snapshot, ghost f: Snapshot) returns (out: SnapRef)
      requires p == ValueOf(snap) && f == ValueOf(frame)
      ensures ValueOf(out) == FrameOut(p, f, present)
      ensures out.state != null && fresh(out.state)
    {
      var st := MergeState(snap.state, frame.state, present);
      if snap.state == null {
        out := frame.(state := st, streamPresent := present, streamFields := frame.fetchedAt);
      } else {
        var live := MergeLive(snap.live, frame.live, present);
        out := snap.(state := st, streamFields := frame.fetchedAt, streamPresent := snap.streamPresent + present,
                     live := live);
      }
    }

    method MergeStream(frame: SnapRef, staleAfter: Duration, now: Time, ok: bool)
      returns (out: SnapRef, ghost changed: bool, ghost gated: (Fields, seq<Reason>))
      modifies this`snap, this`gpsAt, this`odoAt, integrity, this`subs, StoreFrame()
      ensures gated == Gated(Wiring(staleAfter), old(Model()), old(ValueOf(frame)))
      ensures Model() == MergeAdmitted(Wiring(staleAfter), old(Model()), old(ValueOf(frame)), gated.0, now)
      ensures snap.state != null && fresh(snap.state)
      ensures out.state == snap.state && out.live == snap.live
      ensures integrity != null ==> integrity.Value() == CountedAll(old(integrity.Value()), gated.1)
      ensures old(snap.asOf) <= snap.asOf
      ensures onAsOf != null ==> onAsOf.Value() == Advanced(old(onAsOf.Value()), id, snap.asOf, now, ok)
      ensures changed == StreamChanged(old(ValueOf(snap)), ValueOf(snap))
      ensures subs == Notified(old(subs), changed)
    {
      var present;
      ghost var reasons;
      ghost var m, f := Model(), ValueOf(frame);
      present, reasons := GateFrame(frame, staleAfter);
      gated := (present, reasons);
      out, changed := MergeGated(frame, present, staleAfter, now, ok, m, f);
    }

    // The detectors on one merged frame, and what they decide.
    method RunDetectors(prev: Snapshot, gear: Gear, frame: Snapshot, ghost reasons: seq<Reason>)
      returns (fired: bool, ended: bool, started: bool, woke: bool)
      modifies drive, wake
      ensures (drive.Value(), wake.Value(), Outcome(reasons, fired, ended, started, woke))
           == Detected(old(drive.Value()), old(wake.Value()), prev, gear, frame, reasons)
    {
      fired := drive.Boundary(GearOf(prev), gear, frame.fetchedAt);
      ended := ChargeEnded(prev, frame);
      started := ChargeStarted(prev, frame);
      woke := false;
      if !fired && !ended {
        woke := wake.Frame(Asleep(prev), frame.fetchedAt);
      }
    }

    method TallySession(fired: bool, gear: Gear, ended: bool, started: bool)
      modifies session
      ensures session != null ==> session.Value() == Tallied(old(session.Value()), fired, InDrive(gear), ended, started)
    {
      if session == null {
        return;
      }
      if fired {
        session.DriveFired(gear);
      }
      if ended {
        session.ChargeClosed();
      } else if started {
        session.ChargeOpened();
      }
    }

    // Detection and counting; poll asks for an immediate poll.
    method DetectSessions(prev: Snapshot, gear: Gear, frame: Snapshot, ghost reasons: seq<Reason>)
      returns (poll: bool, ghost o: Outcome)
      modifies drive, wake, session
      ensures (drive.Value(), wake.Value(), o)
           == Detected(old(drive.Value()), old(wake.Value()), prev, gear, frame, reasons)
      ensures poll == (o.drive || o.endCharge || o.wake)
      ensures session != null ==>
                session.Value() == Tallied(old(session.Value()), o.drive, InDrive(gear), o.endCharge, o.started)
    {
      var fired, ended, started, woke := RunDetectors(prev, gear, frame, reasons);
      o := Outcome(reasons, fired, ended, started, woke);
      TallySession(fired, gear, ended, started);
      poll := fired || ended || woke;
    }

    // Merge and session detection under one lock.
    method MergeStreamDetect(frame: SnapRef, staleAfter: Duration, now: Time, ok: bool)
      returns (merged: SnapRef, poll: bool, ghost changed: bool, ghost o: Outcome)
      modifies this`snap, this`gpsAt, this`odoAt, drive, wake, integrity, session, this`subs, StoreFrame()
      ensures (Model(), o) == FrameStep(Wiring(staleAfter), old(Model()), old(ValueOf(frame)), now)
      ensures poll == (o.drive || o.endCharge || o.wake)
      ensures integrity != null ==> integrity.Value() == CountedAll(old(integrity.Value()), o.reasons)
      ensures snap.state != null && fresh(snap.state)
      ensures session != null ==>
                session.Value()
                == Tallied(old(session.Value()), o.drive, InDrive(snap.state.v.gear), o.endCharge, o.started)
      ensures merged.state == snap.state && merged.live == snap.live
      ensures old(snap.asOf) <= snap.asOf
      ensures onAsOf != null ==> onAsOf.Value() == Advanced(old(onAsOf.Value()), id, snap.asOf, now, ok)
      ensures changed == StreamChanged(old(ValueOf(snap)), ValueOf(snap))
      ensures subs == Notified(old(subs), changed)
    {
      var prev, f := ValueOf(snap), ValueOf(frame);
      ghost var gated;
      merged, changed, gated := MergeStream(frame, staleAfter, now, ok);
      ghost var m1 := Model();
      poll, o := DetectSessions(prev, merged.state.v.gear, f, gated.1);
      assert Model() == m1.(drive := drive.Value(), wake := wake.Value());
    }
  }
}
