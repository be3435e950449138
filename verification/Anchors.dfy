/** The integrity gate over whole runs: it never rejects a real drive, it admits nothing
    implausible, and its counters account for every bit it clears. */
module Anchors {
  import opened Clock
  import opened Vehicle
  import opened Integrity
  import opened MergeModel
  import opened Registers

  // ---------- No false rejection ----------

  // The dated reading of one field that an event brings, accepted or not.
  function ReadingOf(e: Event, f: StreamField): Option<(FieldValue, Time)> {
    if e.snap.state.None? then None
    else
      var v := Get(e.snap.state.value, f);
      if (if e.PollEvent? then Usable(v) else f in e.snap.streamPresent) then Some((v, e.snap.fetchedAt)) else None
  }

  function Readings(f: StreamField, es: seq<Event>): set<(FieldValue, Time)> {
    if es == [] then {}
    else Readings(f, Front(es)) + if ReadingOf(Last(es), f).Some? then {ReadingOf(Last(es), f).value} else {}
  }

  // The served value, when usable, is a reading taken at the field's own anchor.
  predicate Anchored(f: StreamField, r: Register, es: seq<Event>) {
    r.value.Some? && Usable(r.value.value) ==> (r.value.value, r.anchor) in Readings(f, es)
  }

  lemma {:induction false} ServedValueIsAtItsAnchor(cfg: Config, f: StreamField, r: Register, es: seq<Event>)
    requires Dated(f) && r.value.None? && FramesCarryState(es)
    ensures Anchored(f, RegisterRun(cfg, f, r, es), es)
  {
    if es != [] {
      ServedValueIsAtItsAnchor(cfg, f, r, Front(es));
    }
  }

  // The bit of field f that event k's frame carries is cleared by the gate.
  predicate Rejected(cfg: Config, m: Merge, es: seq<Event>, k: nat, f: StreamField)
    requires k < |es|
  {
    && es[k].FrameEvent?
    && f in es[k].snap.streamPresent
    && f !in Gated(cfg, Run(cfg, m, es[..k]), es[k].snap).0
  }

  predicate Compatible(metric: Metric, f: StreamField, earlier: (FieldValue, Time), e: Event) {
    ReadingOf(e, f).Some? ==>
      Plausible(metric, f, Some(earlier.0), earlier.1, ReadingOf(e, f).value.0, ReadingOf(e, f).value.1)
  }

  // Whatever polls and frames came before, in whatever order and however sparse, a cleared
  // odometer or position bit is owed to a real earlier reading of that same field from
  // which the car could not have reached the new one.
  lemma RejectionHasAWitness(cfg: Config, m: Merge, es: seq<Event>, k: nat, f: StreamField)
    requires Dated(f) && m.snap.state.None? && FramesCarryState(es)
    requires k < |es| && Rejected(cfg, m, es, k, f)
    ensures exists r :: r in Readings(f, es[..k]) && !Compatible(cfg.metric, f, r, es[k])
  {
    var before := Run(cfg, m, es[..k]);
    MergeRefinesRegisters(cfg, m, es[..k], f);
    ServedValueIsAtItsAnchor(cfg, f, Project(m, f), es[..k]);
    GateProjects(cfg, before, es[k].snap, f);
    var served := Project(before, f);
    assert !Plausible(cfg.metric, f, served.value, served.anchor, Get(es[k].snap.state.value, f), es[k].snap.fetchedAt);
    assert Usable(served.value.value);
    var r := (served.value.value, served.anchor);
    assert r in Readings(f, es[..k]) && !Compatible(cfg.metric, f, r, es[k]);
  }

  // A drive on which each frame's reading is compatible with every earlier reading.
  predicate RealDrive(metric: Metric, f: StreamField, es: seq<Event>) {
    forall k, r :: 0 <= k < |es| && es[k].FrameEvent? && r in Readings(f, es[..k]) ==> Compatible(metric, f, r, es[k])
  }

  lemma CompatibleDriveIsAdmitted(cfg: Config, floor: Time, es: seq<Event>, k: nat)
    requires FramesCarryState(es) && k < |es|
    requires RealDrive(cfg.metric, StreamLoc, es) && RealDrive(cfg.metric, StreamOdometer, es)
    ensures !Rejected(cfg, NewMerge(floor), es, k, StreamLoc)
    ensures !Rejected(cfg, NewMerge(floor), es, k, StreamOdometer)
  {
    if Rejected(cfg, NewMerge(floor), es, k, StreamLoc) {
      RejectionHasAWitness(cfg, NewMerge(floor), es, k, StreamLoc);
    }
    if Rejected(cfg, NewMerge(floor), es, k, StreamOdometer) {
      RejectionHasAWitness(cfg, NewMerge(floor), es, k, StreamOdometer);
    }
  }

  // ---------- No false rejection, in numbers ----------

  // The odometer a poll or frame brings, when it brings one.
  function OdometerIn(e: Event): Option<int> {
    if e.snap.state.None? then None
    else
      var odo := e.snap.state.value.odometerMeters;
      if (if e.PollEvent? then odo > 0 else StreamOdometer in e.snap.streamPresent) then Some(odo) else None
  }

  function PositionIn(e: Event): Option<Location> {
    if e.snap.state.None? || (e.FrameEvent? && StreamLoc !in e.snap.streamPresent) then None
    else e.snap.state.value.location
  }

  // Every odometer a frame brings is at most 2 m behind and at most 150 m/s ahead of every
  // earlier positive one, over at least a second.
  predicate SaneOdometer(es: seq<Event>) {
    forall i, k :: 0 <= i < k < |es| && es[k].FrameEvent? && OdometerIn(es[i]).Some? && OdometerIn(es[k]).Some? ==>
      OdometerFollows(es[i], es[k])
  }

  predicate OdometerFollows(a: Event, b: Event)
    requires OdometerIn(a).Some? && OdometerIn(b).Some?
  {
    var step := OdometerIn(b).value - OdometerIn(a).value;
    OdometerIn(a).value > 0 ==>
      step >= -2 && step * 1_000_000_000 <= 150 * Window(a.snap.fetchedAt, b.snap.fetchedAt)
  }

  // Every position a frame brings is within 100 m of every earlier one, or reached from it at
  // 150 m/s or less over at least a second.
  predicate SanePositions(metric: Metric, es: seq<Event>) {
    forall i, k :: 0 <= i < k < |es| && es[k].FrameEvent? && PositionIn(es[i]).Some? && PositionIn(es[k]).Some? ==>
      PositionFollows(metric, es[i], es[k])
  }

  predicate PositionFollows(metric: Metric, a: Event, b: Event)
    requires PositionIn(a).Some? && PositionIn(b).Some?
  {
    var (p, q) := (PositionIn(a).value, PositionIn(b).value);
    var move := metric(p.latitude, p.longitude, q.latitude, q.longitude);
    move <= 100.0 || move * 1_000_000_000.0 <= 150.0 * Window(a.snap.fetchedAt, b.snap.fetchedAt) as real
  }

  lemma {:induction false} ReadingIsFrom(f: StreamField, es: seq<Event>, r: (FieldValue, Time)) returns (i: nat)
    requires r in Readings(f, es)
    ensures i < |es| && ReadingOf(es[i], f) == Some(r)
  {
    if r in Readings(f, Front(es)) {
      i := ReadingIsFrom(f, Front(es), r);
    } else {
      i := |es| - 1;
    }
  }

  lemma SaneIsReal(metric: Metric, es: seq<Event>)
    ensures SaneOdometer(es) ==> RealDrive(metric, StreamOdometer, es)
    ensures SanePositions(metric, es) ==> RealDrive(metric, StreamLoc, es)
  {
    if SaneOdometer(es) {
      forall k, r | 0 <= k < |es| && es[k].FrameEvent? && r in Readings(StreamOdometer, es[..k])
        ensures Compatible(metric, StreamOdometer, r, es[k])
      {
        var i := ReadingIsFrom(StreamOdometer, es[..k], r);
        assert es[..k][i] == es[i];
        assert OdometerIn(es[k]).Some? ==> OdometerFollows(es[i], es[k]);
      }
    }
    if SanePositions(metric, es) {
      forall k, r | 0 <= k < |es| && es[k].FrameEvent? && r in Readings(StreamLoc, es[..k])
        ensures Compatible(metric, StreamLoc, r, es[k])
      {
        var i := ReadingIsFrom(StreamLoc, es[..k], r);
        assert es[..k][i] == es[i];
        assert PositionIn(es[i]).Some? && PositionIn(es[k]).Some? ==> PositionFollows(metric, es[i], es[k]);
      }
    }
  }

  // On a drive the car could have driven, no odometer or position bit is ever cleared, however
  // sparse the fields and however polls interleave.
  lemma NoFalseRejection(cfg: Config, floor: Time, es: seq<Event>, k: nat)
    requires FramesCarryState(es) && k < |es| && es[k].FrameEvent?
    requires SaneOdometer(es) && SanePositions(cfg.metric, es)
    ensures var kept := Gated(cfg, Run(cfg, NewMerge(floor), es[..k]), es[k].snap).0;
            && (StreamOdometer in es[k].snap.streamPresent ==> StreamOdometer in kept)
            && (StreamLoc in es[k].snap.streamPresent ==> StreamLoc in kept)
  {
    SaneIsReal(cfg.metric, es);
    CompatibleDriveIsAdmitted(cfg, floor, es, k);
  }

  // ---------- Everything admitted is plausible ----------

  predicate InRange(s: State) {
    SocPlausible(s.batteryLevelPct) && SpeedPlausible(s.speedMps)
  }

  predicate PollsInRange(es: seq<Event>) {
    forall i :: 0 <= i < |es| && es[i].PollEvent? && es[i].snap.state.Some? ==> InRange(es[i].snap.state.value)
  }

  predicate ValueInRange(f: StreamField, v: Option<FieldValue>) {
    v.Some? && v.value.Num? ==>
      (f == StreamSOC ==> SocPlausible(v.value.num)) && (f == StreamSpeed ==> SpeedPlausible(v.value.num))
  }

  lemma {:induction false} RegisterInRange(cfg: Config, f: StreamField, r: Register, es: seq<Event>)
    requires cfg.gated && PollsInRange(es) && r.value.None?
    requires f == StreamSOC || f == StreamSpeed
    ensures ValueInRange(f, RegisterRun(cfg, f, r, es).value)
  {
    if es != [] {
      assert PollsInRange(Front(es));
      RegisterInRange(cfg, f, r, Front(es));
    }
  }

  lemma ServedIsInRange(cfg: Config, floor: Time, es: seq<Event>)
    requires cfg.gated && PollsInRange(es)
    ensures var s := Run(cfg, NewMerge(floor), es).snap.state;
            s.Some? ==> InRange(s.value)
  {
    var m := NewMerge(floor);
    MergeRefinesRegisters(cfg, m, es, StreamSOC);
    MergeRefinesRegisters(cfg, m, es, StreamSpeed);
    RegisterInRange(cfg, StreamSOC, Project(m, StreamSOC), es);
    RegisterInRange(cfg, StreamSpeed, Project(m, StreamSpeed), es);
  }

  // ---------- Odometer growth ----------

  // On a served positive odometer no frame moves it back by more than the slack.
  lemma OdometerNeverRollsBack(cfg: Config, m: Merge, frame: Snapshot, now: Time)
    requires cfg.gated && m.snap.state.Some? && frame.state.Some?
    requires m.snap.state.value.odometerMeters > 0
    ensures var after := MergeFrame(cfg, m, frame, now);
            && after.snap.state.Some?
            && after.snap.state.value.odometerMeters >= m.snap.state.value.odometerMeters - ODOMETER_SLACK_METERS
            && (StreamOdometer in Gated(cfg, m, frame).0 ==>
                  OdometerPaced(m.snap.state.value.odometerMeters, m.odoAt, frame.state.value.odometerMeters,
                                frame.fetchedAt))
  {
    FrameProjects(cfg, m, frame, now, StreamOdometer);
    GateProjects(cfg, m, frame, StreamOdometer);
  }

  // Served growth stays within the ground-speed ceiling for the time between anchors.
  predicate GrowthWithin(a: Merge, b: Merge) {
    && a.snap.state.Some? && b.snap.state.Some?
    && (b.snap.state.value.odometerMeters - a.snap.state.value.odometerMeters) as real * 1_000_000_000.0
       <= MAX_GROUND_SPEED_MPS * (b.odoAt - a.odoAt) as real
  }

  // A frame whose odometer reading, if accepted, is positive and at least a second after the
  // reading served before it.
  predicate SpacedFrame(cfg: Config, before: Merge, e: Event) {
    && e.FrameEvent?
    && e.snap.state.Some?
    && (StreamOdometer in Gated(cfg, before, e.snap).0 ==>
          e.snap.state.value.odometerMeters > 0 && e.snap.fetchedAt - before.odoAt >= MIN_ELAPSED)
  }

  predicate SpacedFrames(cfg: Config, m: Merge, es: seq<Event>) {
    es == [] || (SpacedFrames(cfg, m, Front(es)) && SpacedFrame(cfg, Run(cfg, m, Front(es)), Last(es)))
  }

  lemma GrowthOfOneFrame(cfg: Config, m: Merge, e: Event)
    requires cfg.gated && SpacedFrame(cfg, m, e)
    requires m.snap.state.Some? && m.snap.state.value.odometerMeters > 0
    ensures GrowthWithin(m, Step(cfg, m, e))
    ensures Step(cfg, m, e).snap.state.value.odometerMeters > 0
  {
    OdometerNeverRollsBack(cfg, m, e.snap, e.now);
    FrameProjects(cfg, m, e.snap, e.now, StreamOdometer);
    GateProjects(cfg, m, e.snap, StreamOdometer);
    var after := MergeFrame(cfg, m, e.snap, e.now);
    assert Step(cfg, m, e).snap == after.snap && Step(cfg, m, e).odoAt == after.odoAt;
    assert Project(after, StreamOdometer).value == Some(Whole(after.snap.state.value.odometerMeters));
  }

  // On a poll-free run of such frames growth telescopes over the whole run.
  lemma {:induction false} OdometerGrowthTelescopes(cfg: Config, m: Merge, es: seq<Event>)
    requires cfg.gated && SpacedFrames(cfg, m, es)
    requires m.snap.state.Some? && m.snap.state.value.odometerMeters > 0
    ensures GrowthWithin(m, Run(cfg, m, es))
    ensures Run(cfg, m, es).snap.state.value.odometerMeters > 0
  {
    if es != [] {
      OdometerGrowthTelescopes(cfg, m, Front(es));
      GrowthOfOneFrame(cfg, Run(cfg, m, Front(es)), Last(es));
    }
  }

  // ---------- Counters ----------

  function ReasonsAt(cfg: Config, m: Merge, e: Event): seq<Reason> {
    if e.FrameEvent? then FrameStep(cfg, m, e.snap, e.now).1.reasons else []
  }

  function CountsAfter(cfg: Config, m: Merge, es: seq<Event>): Counts {
    if es == [] then NO_COUNTS
    else CountedAll(CountsAfter(cfg, m, Front(es)), ReasonsAt(cfg, Run(cfg, m, Front(es)), Last(es)))
  }

  function BitsCleared(cfg: Config, m: Merge, es: seq<Event>): nat {
    if es == [] then 0
    else
      BitsCleared(cfg, m, Front(es))
      + if Last(es).FrameEvent?
        then |Last(es).snap.streamPresent - Gated(cfg, Run(cfg, m, Front(es)), Last(es).snap).0|
        else 0
  }

  lemma {:induction false} CountersMatchClearedBits(cfg: Config, m: Merge, es: seq<Event>)
    ensures CountsAfter(cfg, m, es).Total() == BitsCleared(cfg, m, es)
  {
    if es != [] {
      CountersMatchClearedBits(cfg, m, Front(es));
      var before := Run(cfg, m, Front(es));
      var e := Last(es).snap;
      if cfg.gated {
        ReasonsCountClearedBits(cfg.metric, before.snap.state, e.state, e.streamPresent, before.gpsAt, before.odoAt,
                                e.fetchedAt);
      } else {
        assert e.streamPresent - e.streamPresent == {};
      }
    }
  }
}
