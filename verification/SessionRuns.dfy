/** Drive sessions, charge edges and wake polls over whole merger runs, with polls and frames
    interleaved in any way. */
module SessionRuns {
  import opened Clock
  import opened Vehicle
  import opened Trigger
  import opened MergeModel
  import opened Liveness

  function OutcomeAt(cfg: Config, m: Merge, e: Event): Outcome {
    if e.FrameEvent? then FrameStep(cfg, m, e.snap, e.now).1 else Outcome([], false, false, false, false)
  }

  // The shared counters after a run of one vehicle.
  function SessionsAfter(cfg: Config, m: Merge, es: seq<Event>): Sessions {
    if es == [] then NO_SESSIONS
    else
      var before := Run(cfg, m, Front(es));
      var o := OutcomeAt(cfg, before, Last(es));
      Tallied(SessionsAfter(cfg, m, Front(es)), o.drive, InDrive(GearOf(Step(cfg, before, Last(es)).snap)),
              o.endCharge, o.started)
  }

  // ---------- Drives ----------

  // What the drive detector sees: the served gear before and after each frame.
  function GearFrames(cfg: Config, m: Merge, es: seq<Event>): seq<GearFrame> {
    if es == [] then []
    else
      var before := Run(cfg, m, Front(es));
      GearFrames(cfg, m, Front(es))
      + if Last(es).PollEvent? then []
        else [GearFrame(GearOf(before.snap), GearOf(Step(cfg, before, Last(es)).snap), Last(es).snap.fetchedAt)]
  }

  lemma DetectorStep(cfg: Config, m: Merge, e: Event)
    requires e.FrameEvent?
    ensures (Step(cfg, m, e).drive, OutcomeAt(cfg, m, e).drive)
         == DriveBoundary(m.drive, GearOf(m.snap), GearOf(Step(cfg, m, e).snap), e.snap.fetchedAt)
  {
    assert Step(cfg, m, e).snap == MergeFrame(cfg, m, e.snap, e.now).snap;
  }

  lemma FiredAppend(fs: seq<GearFrame>, f: GearFrame)
    ensures var (drive, fired) := DriveBoundary(DriveAfter(fs), f.prev, f.now, f.t);
            var moving := InDrive(f.now);
            && DriveAfter(fs + [f]) == drive
            && Opens(Fired(fs + [f])) == Opens(Fired(fs)) + (if fired && moving then 1 else 0)
            && Closes(Fired(fs + [f])) == Closes(Fired(fs)) + (if fired && !moving then 1 else 0)
  {
    assert (fs + [f])[..|fs|] == fs;
    var fire := Fire(InDrive(f.now), f.t);
    assert (Fired(fs) + [fire])[..|Fired(fs)|] == Fired(fs);
  }

  // Polls in between never reach the detector: it behaves on a run as on its frames alone.
  lemma {:induction false} DetectorSeesGearFrames(cfg: Config, floor: Time, es: seq<Event>)
    ensures var m := NewMerge(floor);
            var fires := Fired(GearFrames(cfg, m, es));
            && Run(cfg, m, es).drive == DriveAfter(GearFrames(cfg, m, es))
            && SessionsAfter(cfg, m, es).drivesOpened == Opens(fires)
            && SessionsAfter(cfg, m, es).drivesClosed == Closes(fires)
  {
    if es != [] {
      DetectorSeesGearFrames(cfg, floor, Front(es));
      var m := NewMerge(floor);
      var before, e := Run(cfg, m, Front(es)), Last(es);
      if e.FrameEvent? {
        DetectorStep(cfg, before, e);
        FiredAppend(GearFrames(cfg, m, Front(es)),
                    GearFrame(GearOf(before.snap), GearOf(Step(cfg, before, e).snap), e.snap.fetchedAt));
      } else {
        assert GearFrames(cfg, m, es) == GearFrames(cfg, m, Front(es));
      }
    }
  }

  // Over any interleaving of polls and frames: drive boundaries alternate and stay the flap
  // window apart, and the opened and closed counters differ by at most the open drive.
  lemma DriveCountersBalance(cfg: Config, floor: Time, es: seq<Event>)
    requires GearFrames(cfg, NewMerge(floor), es) != []
    ensures var m := NewMerge(floor);
            var frames := GearFrames(cfg, m, es);
            && AlternatesApart(Seed(frames), Fired(frames))
            && SessionsAfter(cfg, m, es).drivesOpened - SessionsAfter(cfg, m, es).drivesClosed
               == (if Run(cfg, m, es).drive.driving then 1 else 0) - (if Seed(frames) then 1 else 0)
  {
    DetectorSeesGearFrames(cfg, floor, es);
    DriveSessionsBalance(GearFrames(cfg, NewMerge(floor), es));
  }

  // ---------- Charges ----------

  // Frames only, each reporting no negative power and marking any power it reports.
  predicate ChargeFrames(es: seq<Event>) {
    forall i :: 0 <= i < |es| ==>
      && es[i].FrameEvent?
      && (es[i].snap.live.Some? ==>
            && es[i].snap.live.value.powerKw >= 0.0
            && (es[i].snap.live.value.powerKw > 0.0 ==> StreamChargePower in es[i].snap.streamPresent))
  }

  // A frame that reads charge power as absent or zero.
  predicate ReadsZero(e: Event) {
    StreamChargePower in e.snap.streamPresent && (e.snap.live.None? || e.snap.live.value.powerKw == 0.0)
  }

  function ZeroReadingsWhileCharging(cfg: Config, m: Merge, es: seq<Event>): nat {
    if es == [] then 0
    else
      ZeroReadingsWhileCharging(cfg, m, Front(es))
      + if Charging(Run(cfg, m, Front(es)).snap) && ReadsZero(Last(es)) then 1 else 0
  }

  lemma ChargeStepFrame(cfg: Config, m: Merge, e: Event)
    requires m.snap.state.Some? && ChargeFrames([e])
    ensures var after := Step(cfg, m, e).snap;
            && after.state.Some?
            && (Charging(after) <==> Charging(m.snap) || OutcomeAt(cfg, m, e).started)
  {
    assert [e][0] == e;
    var present := Gated(cfg, m, e.snap).0;
    assert StreamChargePower in present <==> StreamChargePower in e.snap.streamPresent by {
      GateKeepsPower(cfg, m, e.snap);
    }
    assert Step(cfg, m, e).snap.live == FrameLive(m.snap.live, e.snap.live, present);
  }

  lemma GateKeepsPower(cfg: Config, m: Merge, frame: Snapshot)
    ensures StreamChargePower in Gated(cfg, m, frame).0 <==> StreamChargePower in frame.streamPresent
  {
  }

  // From a served state, over frames alone: a charge opens at most once and stays open, while
  // every zero reading after it counts as another close.
  lemma {:induction false} ChargeCountersSkew(cfg: Config, m: Merge, es: seq<Event>)
    requires m.snap.state.Some? && ChargeFrames(es)
    ensures var after := Run(cfg, m, es).snap;
            var s := SessionsAfter(cfg, m, es);
            && after.state.Some?
            && (Charging(m.snap) ==> Charging(after))
            && s.chargesOpened == (if Charging(after) && !Charging(m.snap) then 1 else 0)
            && s.chargesClosed == ZeroReadingsWhileCharging(cfg, m, es)
  {
    if es != [] {
      ChargeCountersSkew(cfg, m, Front(es));
      assert Last(es) == es[|es| - 1];
      ChargeStepFrame(cfg, Run(cfg, m, Front(es)), Last(es));
    }
  }

  // A frame that reads a positive charge power.
  predicate ReadsPower(e: Event) {
    StreamChargePower in e.snap.streamPresent && e.snap.live.Some? && e.snap.live.value.powerKw > 0.0
  }

  predicate Powered(es: seq<Event>) {
    exists i :: 0 <= i < |es| && ReadsPower(es[i])
  }

  // What follows the first frame that reads a positive power.
  function AfterPower(es: seq<Event>): seq<Event> {
    if es == [] then [] else if ReadsPower(es[0]) then es[1..] else AfterPower(es[1..])
  }

  function ZeroReadings(es: seq<Event>): nat {
    if es == [] then 0 else ZeroReadings(Front(es)) + if ReadsZero(Last(es)) then 1 else 0
  }

  lemma {:induction false} AfterPowerGrows(es: seq<Event>)
    requires es != []
    ensures Powered(es) <==> Powered(Front(es)) || ReadsPower(Last(es))
    ensures !Powered(Front(es)) ==> AfterPower(es) == []
    ensures Powered(Front(es)) ==> AfterPower(es) == AfterPower(Front(es)) + [Last(es)]
  {
    if |es| == 1 {
      assert es == [Last(es)] && AfterPower(es[1..]) == [];
    } else {
      assert Front(es[1..]) == Front(es)[1..] && Last(es[1..]) == Last(es) && Front(es)[0] == es[0];
      assert es == [es[0]] + es[1..] && Front(es) == [es[0]] + Front(es)[1..];
      AfterPowerGrows(es[1..]);
      assert Powered(es) <==> ReadsPower(es[0]) || Powered(es[1..]);
      assert Powered(Front(es)) <==> ReadsPower(es[0]) || Powered(Front(es)[1..]);
    }
  }

  // Which zero readings count as closes: all of them when the run starts charging, else those
  // after the first positive reading.
  function Closing(charging: bool, es: seq<Event>): seq<Event> {
    if charging then es else AfterPower(es)
  }

  // The run's charge state and both counters, read off the frames alone.
  lemma {:induction false} ChargeCountersAreExactly(cfg: Config, m: Merge, es: seq<Event>)
    requires m.snap.state.Some? && ChargeFrames(es)
    ensures var charging := Charging(m.snap);
            var s := SessionsAfter(cfg, m, es);
            && (Charging(Run(cfg, m, es).snap) <==> charging || Powered(es))
            && s.chargesOpened == (if Powered(es) && !charging then 1 else 0)
            && s.chargesClosed == ZeroReadings(Closing(charging, es))
  {
    ChargeCountersSkew(cfg, m, es);
    if es != [] {
      ChargeCountersAreExactly(cfg, m, Front(es));
      ChargeCountersSkew(cfg, m, Front(es));
      assert Last(es) == es[|es| - 1];
      ChargeStepFrame(cfg, Run(cfg, m, Front(es)), Last(es));
      AfterPowerGrows(es);
      ClosingGrows(Charging(m.snap), es);
    }
  }

  lemma ClosingGrows(charging: bool, es: seq<Event>)
    requires es != []
    ensures ZeroReadings(Closing(charging, es))
         == ZeroReadings(Closing(charging, Front(es)))
            + if (charging || Powered(Front(es))) && ReadsZero(Last(es)) then 1 else 0
  {
    AfterPowerGrows(es);
    if !charging && Powered(Front(es)) {
      assert Front(AfterPower(es)) == AfterPower(Front(es));
    } else if !charging {
      NothingAfter(Front(es));
    }
  }

  lemma {:induction false} NothingAfter(es: seq<Event>)
    requires !Powered(es)
    ensures AfterPower(es) == []
  {
    if es != [] {
      assert forall i :: 0 <= i < |es[1..]| ==> es[1..][i] == es[i + 1];
      NothingAfter(es[1..]);
    }
  }

  // So the two charge counters balance exactly when the frames read no zero at all on a charge
  // already under way, and otherwise when none reads a positive power or exactly one zero
  // reading follows the first that does.
  lemma ChargesBalanceExactly(cfg: Config, m: Merge, es: seq<Event>)
    requires m.snap.state.Some? && ChargeFrames(es)
    ensures SessionsAfter(cfg, m, es).chargesOpened == SessionsAfter(cfg, m, es).chargesClosed
       <==> if Charging(m.snap) then ZeroReadings(es) == 0
            else !Powered(es) || ZeroReadings(AfterPower(es)) == 1
  {
    ChargeCountersAreExactly(cfg, m, es);
    if !Powered(es) {
      NothingAfter(es);
    }
  }

  // A frame that carries nothing but a charge power reading.
  function PowerFrame(kw: real, t: Time): Event {
    FrameEvent(Snapshot(Some(ZERO_STATE), Some(LiveSession(kw, 0.0, 0.0, 0, false)), t, t, {StreamChargePower}, ZERO), t)
  }

  lemma RunAppend(cfg: Config, m: Merge, es: seq<Event>, e: Event)
    ensures Run(cfg, m, es + [e]) == Step(cfg, Run(cfg, m, es), e)
    ensures SessionsAfter(cfg, m, es + [e])
         == (var o := OutcomeAt(cfg, Run(cfg, m, es), e);
             Tallied(SessionsAfter(cfg, m, es), o.drive, InDrive(GearOf(Run(cfg, m, es + [e]).snap)), o.endCharge,
                     o.started))
  {
    assert Front(es + [e]) == es;
  }

  // A charge at 7 kW that then reads 0 kW twice is closed twice.
  lemma RepeatedZeroClosesTwice(cfg: Config, m: Merge)
    requires m.snap.state.Some? && !Charging(m.snap)
    ensures var s := SessionsAfter(cfg, m, [] + [PowerFrame(7.0, 1)] + [PowerFrame(0.0, 2)] + [PowerFrame(0.0, 3)]);
            s.chargesOpened == 1 && s.chargesClosed == 2
  {
    var a, b, c := PowerFrame(7.0, 1), PowerFrame(0.0, 2), PowerFrame(0.0, 3);
    var one := [] + [a];
    RunAppend(cfg, m, [], a);
    ChargeStepFrame(cfg, m, a);
    RunAppend(cfg, m, one, b);
    ChargeStepFrame(cfg, Run(cfg, m, one), b);
    RunAppend(cfg, m, one + [b], c);
  }

  // ---------- Wakes ----------

  // What the wake detector sees: frames that crossed no session boundary.
  function SleepFrames(cfg: Config, m: Merge, es: seq<Event>): seq<SleepFrame> {
    if es == [] then []
    else
      var before := Run(cfg, m, Front(es));
      var o := OutcomeAt(cfg, before, Last(es));
      SleepFrames(cfg, m, Front(es))
      + if Last(es).PollEvent? || o.drive || o.endCharge then []
        else [SleepFrame(Asleep(before.snap), Last(es).snap.fetchedAt)]
  }

  lemma {:induction false} WakePrefix(frames: seq<SleepFrame>, f: SleepFrame, n: nat)
    requires n <= |frames|
    ensures WakeAfter(frames + [f], n) == WakeAfter(frames, n)
  {
    if 0 < n {
      WakePrefix(frames, f, n - 1);
    }
  }

  lemma {:induction false} WakeSeesSleepFrames(cfg: Config, floor: Time, es: seq<Event>)
    ensures var frames := SleepFrames(cfg, NewMerge(floor), es);
            Run(cfg, NewMerge(floor), es).wake == WakeAfter(frames, |frames|)
  {
    if es != [] {
      var m := NewMerge(floor);
      WakeSeesSleepFrames(cfg, floor, Front(es));
      var fs, all := SleepFrames(cfg, m, Front(es)), SleepFrames(cfg, m, es);
      if |all| == |fs| + 1 {
        WakePrefix(fs, all[|fs|], |fs|);
        assert all == fs + [all[|fs|]];
      } else {
        assert all == fs;
      }
    }
  }

  // A frame fires a wake poll exactly when it confirms, for the first time, the asleep run of
  // boundary-free frames it belongs to.
  lemma WakePollExactly(cfg: Config, floor: Time, es: seq<Event>, e: Event)
    requires e.FrameEvent?
    ensures var m := Run(cfg, NewMerge(floor), es);
            var o := OutcomeAt(cfg, m, e);
            var frames := SleepFrames(cfg, NewMerge(floor), es) + [SleepFrame(Asleep(m.snap), e.snap.fetchedAt)];
            var i := |frames| - 1;
            o.wake <==> && !o.drive && !o.endCharge
                        && Asleep(m.snap)
                        && Confirms(frames, i)
                        && forall j :: RunStart(frames, i) <= j < i ==> !Confirms(frames, j)
  {
    var m := Run(cfg, NewMerge(floor), es);
    var fs := SleepFrames(cfg, NewMerge(floor), es);
    var f := SleepFrame(Asleep(m.snap), e.snap.fetchedAt);
    WakeSeesSleepFrames(cfg, floor, es);
    WakePrefix(fs, f, |fs|);
    WakeFiresExactly(fs + [f], |fs|);
  }

  function WakePolls(cfg: Config, m: Merge, es: seq<Event>): nat {
    if es == [] then 0
    else WakePolls(cfg, m, Front(es)) + if OutcomeAt(cfg, Run(cfg, m, Front(es)), Last(es)).wake then 1 else 0
  }

  // A run of frames alone leaves a sleeping car asleep and fires at most one wake poll, none
  // if this sleep already fired one.
  lemma {:induction false} SleepingCarWakesOnce(cfg: Config, m: Merge, es: seq<Event>)
    requires Asleep(m.snap) && forall i :: 0 <= i < |es| ==> es[i].FrameEvent?
    ensures Asleep(Run(cfg, m, es).snap)
    ensures WakePolls(cfg, m, es) == (if Run(cfg, m, es).wake.fired then 1 else 0) - (if m.wake.fired then 1 else 0)
    ensures WakePolls(cfg, m, es) <= 1
  {
    if es != [] {
      SleepingCarWakesOnce(cfg, m, Front(es));
      var before := Run(cfg, m, Front(es));
      if Last(es).snap.state.Some? {
        FrameMakesOnline(cfg, before, Last(es).snap, Last(es).now);
      }
    }
  }
}
