/** The merge refines independent per-field registers: after any history each streamed field
    is what a register that watches only that field would hold. */
module Registers {
  import opened Clock
  import opened Vehicle
  import opened Integrity
  import opened MergeModel

  // One field on its own: its value (none while nothing is served), whether the stream owns
  // it, when the last frame of any kind came, and when this field was last set.
  datatype Register = Register(value: Option<FieldValue>, owned: bool, lastFrame: Time, anchor: Time)

  // Only position and odometer readings are dated.
  predicate Dated(f: StreamField) {
    f == StreamLoc || f == StreamOdometer
  }

  predicate Usable(v: FieldValue) {
    (v.Fix? ==> v.fix.Some?) && (v.Whole? ==> v.whole > 0)
  }

  predicate Plausible(metric: Metric, f: StreamField, held: Option<FieldValue>, anchor: Time, v: FieldValue, t: Time) {
    match v
    case Num(x) => (f == StreamSOC ==> SocPlausible(x)) && (f == StreamSpeed ==> SpeedPlausible(x))
    case Whole(n) =>
      f == StreamOdometer && held.Some? && held.value.Whole? && held.value.whole > 0 ==>
        OdometerPaced(held.value.whole, anchor, n, t)
    case Fix(l) =>
      l.Some? && held.Some? && held.value.Fix? && held.value.fix.Some? ==>
        PositionPaced(metric, held.value.fix.value, anchor, l.value, t)
    case _ => true
  }

  // More than the allowance has passed since an instant that is not the zero one. No age is
  // over the longest duration there is.
  predicate Expired(allowance: int, since: int, now: int) {
    && 0 < allowance < 9_223_372_036_854_775_807
    && since != -62_135_596_800_000_000_000
    && now - since > allowance
  }

  function RegisterStep(cfg: Config, f: StreamField, r: Register, e: Event): Register {
    match e
    case PollEvent(poll, now) =>
      var held := r.owned && !IsZero(r.lastFrame) && After(r.lastFrame, poll.fetchedAt)
                  && r.value.Some? && poll.state.Some?;
      var value := if poll.state.None? then None else if held then r.value else Some(Get(poll.state.value, f));
      Register(
        value,
        r.owned && !Expired(cfg.staleAfter, r.lastFrame, now),
        r.lastFrame,
        if Dated(f) && value.Some? && !held && Usable(value.value) then poll.fetchedAt else r.anchor)
    case FrameEvent(frame, now) =>
      var accepted := f in frame.streamPresent
        && (cfg.gated && frame.state.Some? ==>
              Plausible(cfg.metric, f, r.value, r.anchor, Get(frame.state.value, f), frame.fetchedAt));
      var before := if r.value.Some? then r.value.value else Get(ZERO_STATE, f);
      Register(
        Some(if accepted && frame.state.Some? then Get(frame.state.value, f) else before),
        ((r.value.Some? && r.owned) || accepted) && !Expired(cfg.staleAfter, frame.fetchedAt, now),
        frame.fetchedAt,
        if Dated(f) && accepted then frame.fetchedAt else r.anchor)
  }

  function RegisterRun(cfg: Config, f: StreamField, r: Register, es: seq<Event>): Register {
    if es == [] then r else RegisterStep(cfg, f, RegisterRun(cfg, f, r, Front(es)), Last(es))
  }

  function AnchorOf(m: Merge, f: StreamField): Time {
    if f == StreamLoc then m.gpsAt else if f == StreamOdometer then m.odoAt else ZERO
  }

  function Project(m: Merge, f: StreamField): Register {
    Register(
      if m.snap.state.None? then None else Some(Get(m.snap.state.value, f)),
      f in m.snap.streamPresent,
      m.snap.streamFields,
      AnchorOf(m, f))
  }

  // ---------- Refinement ----------

  // Degrading liveness moves no streamed field.
  lemma CommitKeepsFields(cfg: Config, out: Snapshot, now: Time, f: StreamField)
    ensures out.state.Some? <==> Degraded(cfg, out, now).Some?
    ensures out.state.Some? ==> Get(Degraded(cfg, out, now).value, f) == Get(out.state.value, f)
  {
  }

  lemma PowerIsNoField(s: State, p: Power, f: StreamField)
    ensures Get(s.(power := p), f) == Get(s, f)
  {
  }

  lemma PollValue(prev: Snapshot, poll: Snapshot, f: StreamField)
    requires poll.state.Some?
    ensures PollState(prev, poll).Some?
    ensures Get(PollState(prev, poll).value, f)
         == Get(if Holds(prev, poll, f) then prev.state.value else poll.state.value, f)
  {
    if StreamFresher(prev, poll) {
      CopyIsPerField(poll.state.value, prev.state.value, prev.streamPresent, f);
    }
  }

  lemma PollServes(cfg: Config, m: Merge, poll: Snapshot, now: Time, f: StreamField)
    ensures Project(PollStep(cfg, m, poll, now), f).value
         == if poll.state.None? then None else Some(Get(PollState(m.snap, poll).value, f))
  {
    var out := PollOut(m, poll);
    CommitKeepsFields(cfg, out, now, f);
    if poll.state.Some? {
      PowerIsNoField(PollState(m.snap, poll).value, out.state.value.power, f);
    }
  }

  lemma PollProjects(cfg: Config, m: Merge, poll: Snapshot, now: Time, f: StreamField)
    ensures Project(PollStep(cfg, m, poll, now), f)
         == RegisterStep(cfg, f, Project(m, f), PollEvent(poll, now))
  {
    PollServes(cfg, m, poll, now, f);
    if poll.state.Some? {
      PollValue(m.snap, poll, f);
    }
  }

  lemma GateProjects(cfg: Config, m: Merge, frame: Snapshot, f: StreamField)
    ensures f in Gated(cfg, m, frame).0
       <==> && f in frame.streamPresent
            && (cfg.gated && frame.state.Some? ==>
                  Plausible(cfg.metric, f, Project(m, f).value, AnchorOf(m, f), Get(frame.state.value, f),
                            frame.fetchedAt))
  {
    if cfg.gated && frame.state.Some? {
      GateIsExact(cfg.metric, m.snap.state, frame.state.value, frame.streamPresent, m.gpsAt, m.odoAt,
                  frame.fetchedAt, f);
    }
  }

  lemma FrameValue(prev: Option<State>, frame: Option<State>, present: Fields, f: StreamField)
    ensures Get(FrameState(prev, frame, present), f)
         == if f in present && frame.Some? then Get(frame.value, f)
            else if prev.Some? then Get(prev.value, f) else Get(ZERO_STATE, f)
  {
    if frame.Some? {
      var base := if prev.None? then ZERO_STATE else prev.value;
      var copied := Copied(base, frame.value, present);
      CopyIsPerField(base, frame.value, present, f);
      PowerIsNoField(copied, if prev.None? then frame.value.power else FramePower(base.power), f);
    }
  }

  lemma FrameProjects(cfg: Config, m: Merge, frame: Snapshot, now: Time, f: StreamField)
    ensures Project(MergeFrame(cfg, m, frame, now), f)
         == RegisterStep(cfg, f, Project(m, f), FrameEvent(frame, now))
  {
    var present := Gated(cfg, m, frame).0;
    var out := FrameOut(m.snap, frame, present);
    var after := MergeFrame(cfg, m, frame, now);
    var r := RegisterStep(cfg, f, Project(m, f), FrameEvent(frame, now));
    GateProjects(cfg, m, frame, f);
    assert Project(after, f).value == r.value by {
      CommitKeepsFields(cfg, out, now, f);
      FrameValue(m.snap.state, frame.state, present, f);
    }
    assert Project(after, f).owned == r.owned;
    assert Project(after, f).anchor == r.anchor;
  }

  lemma StepProjects(cfg: Config, m: Merge, e: Event, f: StreamField)
    ensures Project(Step(cfg, m, e), f) == RegisterStep(cfg, f, Project(m, f), e)
  {
    match e
    case PollEvent(poll, now) => PollProjects(cfg, m, poll, now, f);
    case FrameEvent(frame, now) => FrameProjects(cfg, m, frame, now, f);
  }

  // After any history of polls, gated delta frames and stall resets, from any state.
  lemma {:induction false} MergeRefinesRegisters(cfg: Config, m: Merge, es: seq<Event>, f: StreamField)
    ensures Project(Run(cfg, m, es), f) == RegisterRun(cfg, f, Project(m, f), es)
  {
    if es != [] {
      MergeRefinesRegisters(cfg, m, Front(es), f);
      StepProjects(cfg, Run(cfg, m, Front(es)), Last(es), f);
    }
  }

  // ---------- Ageing ----------

  // A commit leaves ownership and liveness alone until the last frame is older than the
  // allowance. Then it drops all ownership, and takes an online car offline exactly when the
  // poll is as old, or there was none.
  lemma CommitAgesExactly(cfg: Config, served: Time, out: Snapshot, now: Time)
    ensures var after := Committed(cfg, served, out, now);
            var silent := Expired(cfg.staleAfter, out.streamFields, now);
            var pollGone := out.fetchedAt == -62_135_596_800_000_000_000 || now - out.fetchedAt > cfg.staleAfter;
            && after.streamPresent == (if silent then {} else out.streamPresent)
            && after.state
               == (if silent && pollGone && PowerOf(out) == PowerOnline
                   then Some(out.state.value.(power := PowerOffline)) else out.state)
            && after.live == out.live && after.fetchedAt == out.fetchedAt && after.streamFields == out.streamFields
  {
  }

  // An event that lets the stream live on: a frame, or a poll with a state fetched before the
  // last frame, on a clock within the allowance of that frame.
  predicate Within(cfg: Config, lastFrame: Time, e: Event) {
    && e.snap.state.Some?
    && (e.PollEvent? ==> e.snap.fetchedAt < lastFrame && !Expired(cfg.staleAfter, lastFrame, e.now))
    && (e.FrameEvent? ==> e.snap.fetchedAt != ZERO && !Expired(cfg.staleAfter, e.snap.fetchedAt, e.now))
  }

  function LastFrame(start: Time, es: seq<Event>): Time {
    if es == [] then start else if Last(es).FrameEvent? then Last(es).snap.fetchedAt else LastFrame(start, Front(es))
  }

  predicate AllWithin(cfg: Config, start: Time, es: seq<Event>) {
    es == [] || (AllWithin(cfg, start, Front(es)) && Within(cfg, LastFrame(start, Front(es)), Last(es)))
  }

  // What the last frame whose reading of the field was accepted said, else the value at start.
  function LastAccepted(cfg: Config, m: Merge, es: seq<Event>, f: StreamField, start: FieldValue): FieldValue {
    if es == [] then start
    else if Last(es).FrameEvent? && Last(es).snap.state.Some?
            && f in Gated(cfg, Run(cfg, m, Front(es)), Last(es).snap).0
    then Get(Last(es).snap.state.value, f)
    else LastAccepted(cfg, m, Front(es), f, start)
  }

  // A field a frame has supplied stays the stream's, and keeps the stream's last reading against
  // every older poll, for as long as the frames keep coming within the allowance.
  lemma {:induction false} OwnedFieldIsHeld(cfg: Config, m: Merge, es: seq<Event>, f: StreamField)
    requires m.snap.state.Some? && f in m.snap.streamPresent && m.snap.streamFields != ZERO
    requires AllWithin(cfg, m.snap.streamFields, es)
    ensures var s := Run(cfg, m, es).snap;
            && s.state.Some? && f in s.streamPresent && s.streamFields == LastFrame(m.snap.streamFields, es) != ZERO
            && Get(s.state.value, f) == LastAccepted(cfg, m, es, f, Get(m.snap.state.value, f))
  {
    if es != [] {
      OwnedFieldIsHeld(cfg, m, Front(es), f);
      OwnedThroughOne(cfg, Run(cfg, m, Front(es)), Last(es), f);
    }
  }

  lemma OwnedThroughOne(cfg: Config, m: Merge, e: Event, f: StreamField)
    requires m.snap.state.Some? && f in m.snap.streamPresent && m.snap.streamFields != ZERO
    requires Within(cfg, m.snap.streamFields, e)
    ensures var s := Step(cfg, m, e).snap;
            && s.state.Some? && f in s.streamPresent
            && s.streamFields == (if e.FrameEvent? then e.snap.fetchedAt else m.snap.streamFields)
            && Get(s.state.value, f)
               == (if e.FrameEvent? && f in Gated(cfg, m, e.snap).0 then Get(e.snap.state.value, f)
                   else Get(m.snap.state.value, f))
  {
    StepProjects(cfg, m, e, f);
    var after := Project(Step(cfg, m, e), f);
    if e.FrameEvent? {
      GateProjects(cfg, m, e.snap, f);
    }
    assert after == RegisterStep(cfg, f, Project(m, f), e);
  }

  // A field a frame supplies becomes the stream's at once, unless the frame is already too old.
  lemma AcceptedFieldIsOwned(cfg: Config, m: Merge, frame: Snapshot, now: Time, f: StreamField)
    requires frame.state.Some? && f in Gated(cfg, m, frame).0
    ensures var s := MergeFrame(cfg, m, frame, now).snap;
            && s.state.Some? && Get(s.state.value, f) == Get(frame.state.value, f)
            && s.streamFields == frame.fetchedAt
            && (f in s.streamPresent <==> !Expired(cfg.staleAfter, frame.fetchedAt, now))
  {
    FrameProjects(cfg, m, frame, now, f);
    GateProjects(cfg, m, frame, f);
  }

  // ---------- What the stream never touches ----------

  // The poll-owned fields and the poll time, watched on their own. A first frame with no
  // poll before it opens the record with zero values and its own time.
  datatype PollRecord = PollRecord(owned: Option<PollOwned>, fetchedAt: Time)

  function PollRecordAfter(r: PollRecord, es: seq<Event>): PollRecord {
    if es == [] then r
    else
      var before := PollRecordAfter(r, Front(es));
      match Last(es)
      case PollEvent(poll, _) =>
        PollRecord(if poll.state.None? then None else Some(poll.state.value.pollOwned), poll.fetchedAt)
      case FrameEvent(frame, _) =>
        if before.owned.None? then PollRecord(Some(ZERO_STATE.pollOwned), frame.fetchedAt) else before
  }

  function PollRecordOf(m: Merge): PollRecord {
    PollRecord(if m.snap.state.None? then None else Some(m.snap.state.value.pollOwned), m.snap.fetchedAt)
  }

  // Every field outside the streamed ones and liveness is the last poll's.
  lemma {:induction false} PollsOwnTheRest(cfg: Config, m: Merge, es: seq<Event>)
    ensures PollRecordOf(Run(cfg, m, es)) == PollRecordAfter(PollRecordOf(m), es)
  {
    if es != [] {
      PollsOwnTheRest(cfg, m, Front(es));
    }
  }

  // ---------- The charge session under frames ----------

  predicate Carries(e: Event, f: StreamField) {
    f in e.snap.streamPresent && e.snap.live.Some?
  }

  // The last value a run of frames carried for one session field, starting from v.
  function CarriedPower(v: real, es: seq<Event>): real {
    if es == [] then v
    else if Carries(Last(es), StreamChargePower) && Last(es).snap.live.value.powerKw != 0.0
    then Last(es).snap.live.value.powerKw
    else CarriedPower(v, Front(es))
  }

  function CarriedCurrent(v: real, es: seq<Event>): real {
    if es == [] then v
    else if Carries(Last(es), StreamChargeCurrent) then Last(es).snap.live.value.currentA
    else CarriedCurrent(v, Front(es))
  }

  function CarriedEnergy(v: real, es: seq<Event>): real {
    if es == [] then v
    else if Carries(Last(es), StreamChargeEnergyIn) then Last(es).snap.live.value.totalChargedEnergy
    else CarriedEnergy(v, Front(es))
  }

  // The gate never judges a charge-session field.
  lemma GateSparesSession(cfg: Config, m: Merge, frame: Snapshot)
    ensures var present := Gated(cfg, m, frame).0;
            && (StreamChargePower in present <==> StreamChargePower in frame.streamPresent)
            && (StreamChargeCurrent in present <==> StreamChargeCurrent in frame.streamPresent)
            && (StreamChargeEnergyIn in present <==> StreamChargeEnergyIn in frame.streamPresent)
  {
    GateProjects(cfg, m, frame, StreamChargePower);
    GateProjects(cfg, m, frame, StreamChargeCurrent);
    GateProjects(cfg, m, frame, StreamChargeEnergyIn);
  }

  function SessionAfter(s: LiveSession, es: seq<Event>): LiveSession {
    LiveSession(CarriedPower(s.powerKw, es), CarriedCurrent(s.currentA, es),
                CarriedEnergy(s.totalChargedEnergy, es), s.timeRemainingSec, s.fastCharger)
  }

  lemma SessionUnderOneFrame(cfg: Config, m: Merge, s: LiveSession, es: seq<Event>)
    requires es != [] && Last(es).FrameEvent?
    requires m.snap.state.Some? && m.snap.live == Some(SessionAfter(s, Front(es)))
    ensures Step(cfg, m, Last(es)).snap.live == Some(SessionAfter(s, es))
  {
    var frame := Last(es).snap;
    var present := Gated(cfg, m, frame).0;
    GateSparesSession(cfg, m, frame);
    assert Step(cfg, m, Last(es)).snap.live == FrameLive(m.snap.live, frame.live, present);
  }

  // Over any frames a served session keeps the poll's remaining time and fast-charger flag,
  // and holds the last non-zero power, the last current and the last energy carried.
  lemma {:induction false} SessionUnderFrames(cfg: Config, m: Merge, es: seq<Event>)
    requires forall i :: 0 <= i < |es| ==> es[i].FrameEvent?
    requires m.snap.state.Some? && m.snap.live.Some?
    ensures Run(cfg, m, es).snap.state.Some?
    ensures Run(cfg, m, es).snap.live == Some(SessionAfter(m.snap.live.value, es))
  {
    if es != [] {
      SessionUnderFrames(cfg, m, Front(es));
      SessionUnderOneFrame(cfg, Run(cfg, m, Front(es)), m.snap.live.value, es);
    }
  }

  // ---------- The charge session under polls and frames ----------

  // The session watched on its own: whether anything is served yet, the session, and when the
  // last frame of any kind came. The gate plays no part.
  datatype SessionRegister = SessionRegister(open: bool, live: Option<LiveSession>, lastFrame: Time)

  // A poll's session is taken unless a fresher stream holds one; the first frame of all is
  // taken whole, and any later one gives the fields it carries.
  function SessionStep(r: SessionRegister, e: Event): SessionRegister {
    match e
    case PollEvent(poll, _) =>
      var held := r.open && poll.state.Some? && !IsZero(r.lastFrame) && After(r.lastFrame, poll.fetchedAt);
      SessionRegister(poll.state.Some?, if held && r.live.Some? then r.live else poll.live, r.lastFrame)
    case FrameEvent(frame, _) =>
      SessionRegister(true, if r.open then FrameLive(r.live, frame.live, frame.streamPresent) else frame.live,
                      frame.fetchedAt)
  }

  function SessionRun(r: SessionRegister, es: seq<Event>): SessionRegister {
    if es == [] then r else SessionStep(SessionRun(r, Front(es)), Last(es))
  }

  function SessionOf(m: Merge): SessionRegister {
    SessionRegister(m.snap.state.Some?, m.snap.live, m.snap.streamFields)
  }

  lemma SessionProjects(cfg: Config, m: Merge, e: Event)
    ensures SessionOf(Step(cfg, m, e)) == SessionStep(SessionOf(m), e)
  {
    if e.FrameEvent? {
      GateSparesSession(cfg, m, e.snap);
    }
  }

  // After any history of polls, gated frames and stall resets the served session is the
  // register's.
  lemma {:induction false} MergeRefinesSession(cfg: Config, m: Merge, es: seq<Event>)
    ensures SessionOf(Run(cfg, m, es)) == SessionRun(SessionOf(m), es)
  {
    if es != [] {
      MergeRefinesSession(cfg, m, Front(es));
      SessionProjects(cfg, Run(cfg, m, Front(es)), Last(es));
    }
  }

  // ---------- Order does not matter ----------

  lemma TwoSteps(cfg: Config, m: Merge, a: Event, b: Event)
    ensures Run(cfg, m, [a, b]) == Step(cfg, Step(cfg, m, a), b)
  {
    assert Front([a, b]) == [a];
    assert Front([a]) == [];
    assert Run(cfg, m, [a]) == Step(cfg, m, a);
  }

  lemma RegistersCommute(cfg: Config, f: StreamField, r: Register, a: Event, b: Event)
    requires !cfg.gated && cfg.staleAfter == 0 && r.value.Some?
    requires a.FrameEvent? && b.FrameEvent? && a.snap.state.Some? && b.snap.state.Some?
    requires a.snap.streamPresent !! b.snap.streamPresent
    ensures var x := RegisterStep(cfg, f, RegisterStep(cfg, f, r, a), b);
            var y := RegisterStep(cfg, f, RegisterStep(cfg, f, r, b), a);
            x.value == y.value && x.owned == y.owned
  {
  }

  lemma FramesLiftPower(cfg: Config, m: Merge, a: Event)
    requires cfg.staleAfter == 0 && m.snap.state.Some? && a.FrameEvent? && a.snap.state.Some?
    ensures var after := Step(cfg, m, a).snap;
            && after.state.Some?
            && after.state.value.power == FramePower(m.snap.state.value.power)
            && after.state.value.pollOwned == m.snap.state.value.pollOwned
  {
  }

  // With the gate and the stall reset off, frames that share no field commute on a served
  // state: both orders serve the same state and own the same fields.
  lemma DisjointFramesCommute(cfg: Config, m: Merge, a: Event, b: Event)
    requires !cfg.gated && cfg.staleAfter == 0
    requires m.snap.state.Some?
    requires a.FrameEvent? && b.FrameEvent? && a.snap.state.Some? && b.snap.state.Some?
    requires a.snap.streamPresent !! b.snap.streamPresent
    ensures Run(cfg, m, [a, b]).snap.state == Run(cfg, m, [b, a]).snap.state
    ensures Run(cfg, m, [a, b]).snap.streamPresent == Run(cfg, m, [b, a]).snap.streamPresent
  {
    TwoSteps(cfg, m, a, b);
    TwoSteps(cfg, m, b, a);
    var ma, mb := Step(cfg, m, a), Step(cfg, m, b);
    var mab, mba := Step(cfg, ma, b), Step(cfg, mb, a);
    FramesLiftPower(cfg, m, a);
    FramesLiftPower(cfg, m, b);
    FramesLiftPower(cfg, ma, b);
    FramesLiftPower(cfg, mb, a);
    forall f
      ensures Project(mab, f).value == Project(mba, f).value
      ensures f in mab.snap.streamPresent <==> f in mba.snap.streamPresent
    {
      StepProjects(cfg, m, a, f);
      StepProjects(cfg, ma, b, f);
      StepProjects(cfg, m, b, f);
      StepProjects(cfg, mb, a, f);
      RegistersCommute(cfg, f, Project(m, f), a, b);
    }
    SameProjections(mab.snap, mba.snap, mab, mba);
  }

  lemma SameProjections(x: Snapshot, y: Snapshot, m: Merge, n: Merge)
    requires m.snap == x && n.snap == y && x.state.Some? && y.state.Some?
    requires x.state.value.power == y.state.value.power && x.state.value.pollOwned == y.state.value.pollOwned
    requires forall f :: Project(m, f).value == Project(n, f).value
    ensures x.state == y.state
  {
    forall f
      ensures SameAt(x.state.value, y.state.value, f)
    {
      assert Project(m, f).value == Project(n, f).value;
    }
    FieldsDetermineState(x.state.value, y.state.value);
  }
}
