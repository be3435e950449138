/** What one lock-held step of a vehicle's merger does to the served snapshot, as functions
    of the state before the step. The Merger class is proved to take exactly these steps. */
module MergeModel {
  import opened Clock
  import opened Vehicle
  import opened Integrity
  import opened Trigger

  // How many consecutive offline polls a settled car shows before it is served asleep.
  const OFFLINE_SLEEP_CONFIRM_POLLS := 2

  datatype Config = Config(staleAfter: Duration, gated: bool, metric: Metric)

  datatype Merge = Merge(
    snap: Snapshot,
    gpsAt: Time,
    odoAt: Time,
    offlineCount: nat,
    offlineDriving: bool,
    drive: Drive,
    wake: Wake)

  function NewMerge(floor: Time): Merge {
    Merge(ZERO_SNAPSHOT.(asOf := floor), ZERO, ZERO, 0, false, DRIVE_START, WAKE_START)
  }

  // ---------- Commit ----------

  predicate Stalled(cfg: Config, streamFields: Time, now: Time) {
    cfg.staleAfter > 0 && !IsZero(streamFields) && Sub(now, streamFields) > cfg.staleAfter
  }

  predicate PollStale(cfg: Config, fetchedAt: Time, now: Time) {
    IsZero(fetchedAt) || Sub(now, fetchedAt) > cfg.staleAfter
  }

  // A stalled stream takes an online car offline only when the poll is stale too.
  function Degraded(cfg: Config, out: Snapshot, now: Time): Option<State> {
    if Stalled(cfg, out.streamFields, now) && PollStale(cfg, out.fetchedAt, now)
       && out.state.Some? && out.state.value.power == PowerOnline
    then Some(out.state.value.(power := PowerOffline))
    else out.state
  }

  function Committed(cfg: Config, served: Time, out: Snapshot, now: Time): Snapshot {
    Snapshot(
      Degraded(cfg, out, now),
      out.live,
      out.fetchedAt,
      out.streamFields,
      if Stalled(cfg, out.streamFields, now) then {} else out.streamPresent,
      Latest([served, out.fetchedAt, out.streamFields]))
  }

  predicate LocChanged(a: Option<Location>, b: Option<Location>) {
    if a.None? || b.None? then a.None? != b.None?
    else a.value.latitude != b.value.latitude || a.value.longitude != b.value.longitude
  }

  predicate LiveChanged(a: Option<LiveSession>, b: Option<LiveSession>) {
    if a.None? || b.None? then a.None? != b.None?
    else a.value.powerKw != b.value.powerKw || a.value.totalChargedEnergy != b.value.totalChargedEnergy
  }

  // The change test that decides whether subscribers are notified.
  predicate StreamChanged(a: Snapshot, b: Snapshot) {
    if a.state.None? || b.state.None? then a.state.None? != b.state.None?
    else
      var (x, y) := (a.state.value, b.state.value);
      || x.power != y.power || x.gear != y.gear
      || x.speedMps != y.speedMps || x.headingDeg != y.headingDeg
      || x.odometerMeters != y.odometerMeters || x.rangeKm != y.rangeKm
      || x.batteryLevelPct != y.batteryLevelPct
      || LocChanged(x.location, y.location)
      || LiveChanged(a.live, b.live)
  }

  // Everything a pushed line shows, at full resolution.
  datatype Watched = Watched(power: Power, gear: Gear, speed: real, heading: real, odometer: int, range: int, soc: real,
                             place: Option<(real, real)>, session: Option<(real, real)>)

  function WatchedIn(st: State, live: Option<LiveSession>): Watched {
    Watched(st.power, st.gear, st.speedMps, st.headingDeg, st.odometerMeters, st.rangeKm, st.batteryLevelPct,
            if st.location.None? then None else Some((st.location.value.latitude, st.location.value.longitude)),
            if live.None? then None else Some((live.value.powerKw, live.value.totalChargedEnergy)))
  }

  // Subscribers hear of a change exactly when something watched moved, or a state came or went.
  lemma ChangedIsWatched(a: Snapshot, b: Snapshot)
    ensures StreamChanged(a, b)
       <==> if a.state.Some? && b.state.Some? then WatchedIn(a.state.value, a.live) != WatchedIn(b.state.value, b.live)
            else a.state.Some? || b.state.Some?
  {
  }

  // ---------- Poll ----------

  predicate StreamFresher(prev: Snapshot, poll: Snapshot) {
    !IsZero(prev.streamFields) && After(prev.streamFields, poll.fetchedAt) && prev.state.Some? && poll.state.Some?
  }

  predicate Holds(prev: Snapshot, poll: Snapshot, f: StreamField) {
    StreamFresher(prev, poll) && f in prev.streamPresent
  }

  function PollState(prev: Snapshot, poll: Snapshot): Option<State> {
    if StreamFresher(prev, poll)
    then Some(Copied(poll.state.value, prev.state.value, prev.streamPresent))
    else poll.state
  }

  // Reclassified liveness, and the new episode length and latch.
  function Classified(power: Power, count: nat, driving: bool, prev: Snapshot): (Power, nat, bool) {
    if power != PowerOffline then (power, 0, false)
    else
      var latch := if count == 0 then InDrive(GearOf(prev)) else driving;
      (if !latch && count + 1 >= OFFLINE_SLEEP_CONFIRM_POLLS then PowerSleep else power, count + 1, latch)
  }

  // The poll's snapshot as handed to commit, given its state after the copy-back.
  function PollOutOf(m: Merge, poll: Snapshot, st: Option<State>): Snapshot {
    Snapshot(
      if st.None? then None
      else Some(st.value.(power := Classified(st.value.power, m.offlineCount, m.offlineDriving, m.snap).0)),
      if StreamFresher(m.snap, poll) && m.snap.live.Some? then m.snap.live else poll.live,
      poll.fetchedAt,
      m.snap.streamFields,
      m.snap.streamPresent,
      poll.asOf)
  }

  function PollOut(m: Merge, poll: Snapshot): Snapshot {
    PollOutOf(m, poll, PollState(m.snap, poll))
  }

  // A field the poll itself serves is dated by the poll.
  function PollGpsAt(m: Merge, poll: Snapshot, st: Option<State>): Time {
    if st.Some? && !Holds(m.snap, poll, StreamLoc) && st.value.location.Some? then poll.fetchedAt else m.gpsAt
  }

  function PollOdoAt(m: Merge, poll: Snapshot, st: Option<State>): Time {
    if st.Some? && !Holds(m.snap, poll, StreamOdometer) && st.value.odometerMeters > 0 then poll.fetchedAt else m.odoAt
  }

  function PollEpisode(m: Merge, st: Option<State>): (nat, bool) {
    if st.None? then (m.offlineCount, m.offlineDriving)
    else
      var c := Classified(st.value.power, m.offlineCount, m.offlineDriving, m.snap);
      (c.1, c.2)
  }

  function PollStep(cfg: Config, m: Merge, poll: Snapshot, now: Time): Merge {
    var st := PollState(m.snap, poll);
    Merge(Committed(cfg, m.snap.asOf, PollOut(m, poll), now), PollGpsAt(m, poll, st), PollOdoAt(m, poll, st),
          PollEpisode(m, st).0, PollEpisode(m, st).1, m.drive, m.wake)
  }

  // ---------- Stream frame ----------

  function Gated(cfg: Config, m: Merge, frame: Snapshot): (Fields, seq<Reason>) {
    if cfg.gated
    then Gate(cfg.metric, m.snap.state, frame.state, frame.streamPresent, m.gpsAt, m.odoAt, frame.fetchedAt)
    else (frame.streamPresent, [])
  }

  // A frame implies the car is up, but never wakes a sleeping one.
  function FramePower(p: Power): Power {
    if p == PowerUnknown || p == PowerOffline then PowerOnline else p
  }

  // The session fields the frame carries update the served session; one with none yet
  // adopts the frame's session whole. A zero power is never taken.
  function FrameLive(prev: Option<LiveSession>, frame: Option<LiveSession>, present: Fields): Option<LiveSession> {
    if frame.None? then prev
    else
      var power := StreamChargePower in present && frame.value.powerKw != 0.0;
      var current := StreamChargeCurrent in present;
      var energy := StreamChargeEnergyIn in present;
      if !power && !current && !energy then prev
      else if prev.None? then frame
      else Some(LiveSession(
        if power then frame.value.powerKw else prev.value.powerKw,
        if current then frame.value.currentA else prev.value.currentA,
        if energy then frame.value.totalChargedEnergy else prev.value.totalChargedEnergy,
        prev.value.timeRemainingSec,
        prev.value.fastCharger))
  }

  function FrameState(prev: Option<State>, frame: Option<State>, present: Fields): State {
    if prev.None? then
      if frame.None? then ZERO_STATE
      else Copied(ZERO_STATE, frame.value, present).(power := frame.value.power)
    else if frame.None? then prev.value
    else Copied(prev.value, frame.value, present).(power := FramePower(prev.value.power))
  }

  // The frame's snapshot as handed to commit; present is what the gate left.
  function FrameOut(prev: Snapshot, frame: Snapshot, present: Fields): Snapshot {
    if prev.state.None? then
      Snapshot(Some(FrameState(None, frame.state, present)), frame.live, frame.fetchedAt, frame.fetchedAt,
               present, frame.asOf)
    else
      Snapshot(Some(FrameState(prev.state, frame.state, present)),
               FrameLive(prev.live, frame.live, present),
               prev.fetchedAt, frame.fetchedAt, prev.streamPresent + present, prev.asOf)
  }

  // The merge alone, without the session detectors, given what the gate left.
  function MergeAdmitted(cfg: Config, m: Merge, frame: Snapshot, present: Fields, now: Time): Merge {
    m.(snap := Committed(cfg, m.snap.asOf, FrameOut(m.snap, frame, present), now),
       gpsAt := if StreamLoc in present then frame.fetchedAt else m.gpsAt,
       odoAt := if StreamOdometer in present then frame.fetchedAt else m.odoAt)
  }

  function MergeFrame(cfg: Config, m: Merge, frame: Snapshot, now: Time): Merge {
    MergeAdmitted(cfg, m, frame, Gated(cfg, m, frame).0, now)
  }

  datatype Outcome = Outcome(reasons: seq<Reason>, drive: bool, endCharge: bool, started: bool, wake: bool)

  // The detectors on one frame: prev is what was served before it, gear the merged gear.
  function Detected(drive: Drive, wake: Wake, prev: Snapshot, gear: Gear, frame: Snapshot, reasons: seq<Reason>)
    : (Drive, Wake, Outcome)
  {
    var (d, fired) := DriveBoundary(drive, GearOf(prev), gear, frame.fetchedAt);
    var ended := ChargeEnded(prev, frame);
    var (w, woke) := if fired || ended then (wake, false) else WakeFrame(wake, Asleep(prev), frame.fetchedAt);
    (d, w, Outcome(reasons, fired, ended, ChargeStarted(prev, frame), woke))
  }

  // The merge and the detectors, under one lock.
  function FrameStep(cfg: Config, m: Merge, frame: Snapshot, now: Time): (Merge, Outcome) {
    var merged := MergeFrame(cfg, m, frame, now);
    var (drive, wake, o) := Detected(m.drive, m.wake, m.snap, GearOf(merged.snap), frame, Gated(cfg, m, frame).1);
    (merged.(drive := drive, wake := wake), o)
  }

  // ---------- Runs ----------

  // One call into the merger, with the wall clock it sees.
  datatype Event = PollEvent(snap: Snapshot, now: Time) | FrameEvent(snap: Snapshot, now: Time)

  function Step(cfg: Config, m: Merge, e: Event): Merge {
    match e
    case PollEvent(snap, now) => PollStep(cfg, m, snap, now)
    case FrameEvent(snap, now) => FrameStep(cfg, m, snap, now).0
  }

  function Run(cfg: Config, m: Merge, es: seq<Event>): Merge {
    if es == [] then m else Step(cfg, Run(cfg, m, Front(es)), Last(es))
  }

  function Front<T>(s: seq<T>): seq<T>
    requires s != []
  {
    s[..|s| - 1]
  }

  function Last<T>(s: seq<T>): T
    requires s != []
  {
    s[|s| - 1]
  }

  // The record sink drops a frame that carries no state before it reaches the merger.
  predicate FramesCarryState(es: seq<Event>) {
    forall i :: 0 <= i < |es| && es[i].FrameEvent? ==> es[i].snap.state.Some?
  }
}
