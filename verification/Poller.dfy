/** One vehicle's poll loop as an object: what a poll does to its record of itself, and how
    long the loop then waits. */
module Poller {
  import opened Clock
  import opened Vehicle
  import opened Cadence
  import opened Units

  datatype Tuning = Tuning(intervals: Intervals, minInterval: Duration, jitterPct: real, quotaBlockFloor: Duration)

  datatype PollError = PollError(
    quotaBlocked: bool,
    telemetryWiped: bool,
    unauthenticated: bool,
    rateLimited: bool,
    retryAfter: Option<Duration>)

  datatype PollResult = Polled(snap: Snapshot) | Failed(error: PollError)

  // What the loop reads besides the poll itself: the clock, when a frame last came, the random
  // draw, and the delay the exponential backoff gives at each step since its last reset.
  datatype Surroundings = Surroundings(now: Time, lastStream: Time, draw: real, backoff: nat -> Duration)

  datatype Health = Health(
    snapshot: Snapshot,
    lastSuccessAt: Time,
    consecutiveIdle: nat,
    consecutiveFailures: nat,
    needsReauth: bool,
    lastBackoff: Duration,
    successCount: nat,
    errorCount: nat,
    rateLimitedCount: nat,
    quotaBlockedCount: nat,
    changedCount: nat,
    telemetryConfigWiped: bool,
    quotaBlockedUntil: Time,
    vehicleDataFetches: nat,
    pollsByState: map<Derived, nat>,
    lastErr: Option<PollError>,
    lastErrAt: Time,
    lastChangeAt: Time,
    backoffStep: nat)

  const NEW_HEALTH := Health(ZERO_SNAPSHOT, ZERO, 0, 0, false, 0, 0, 0, 0, 0, 0, false, ZERO, 0, map[], None, ZERO,
                             ZERO, 0)

  // ---------- What counts as a change ----------

  predicate ContentChanged(earlier: Option<State>, later: Option<State>, oldLive: Option<LiveSession>,
                           newLive: Option<LiveSession>)
  {
    if earlier.None? || later.None? then earlier.None? != later.None?
    else
      var (a, b) := (earlier.value, later.value);
      || a.odometerMeters != b.odometerMeters
      || Truncated(a.batteryLevelPct) != Truncated(b.batteryLevelPct)
      || a.power != b.power || a.gear != b.gear || a.charger != b.charger || a.plug != b.plug
      || a.pollOwned.chargePortOpen != b.pollOwned.chargePortOpen
      || a.rangeKm != b.rangeKm
      || oldLive.None? != newLive.None?
      || (if a.location.None? || b.location.None? then a.location.None? != b.location.None?
          else a.location.value.latitude != b.location.value.latitude
               || a.location.value.longitude != b.location.value.longitude)
  }

  predicate SyncAdvanced(earlier: Option<State>, later: Option<State>) {
    if earlier.None? || later.None? then earlier.None? != later.None?
    else After(later.value.pollOwned.lastUpdate, earlier.value.pollOwned.lastUpdate)
         || After(later.value.pollOwned.cloudLastSync, earlier.value.pollOwned.cloudLastSync)
  }

  // A poll that brings no change and no fresh upstream sync.
  predicate IsIdle(prev: Snapshot, snap: Snapshot) {
    !ContentChanged(prev.state, snap.state, prev.live, snap.live) && !SyncAdvanced(prev.state, snap.state)
  }

  // What a consumer acts on.
  datatype Watched = Watched(odometer: int, soc: int, power: Power, gear: Gear, charger: ChargerState, plug: ChargePlug,
                             portOpen: bool, range: int, charging: bool, place: Option<(real, real)>)

  function WatchedIn(st: State, live: Option<LiveSession>): Watched {
    Watched(st.odometerMeters, Truncated(st.batteryLevelPct), st.power, st.gear, st.charger, st.plug,
            st.pollOwned.chargePortOpen, st.rangeKm, live.Some?,
            if st.location.None? then None else Some((st.location.value.latitude, st.location.value.longitude)))
  }

  // The content changed exactly when what a consumer acts on did, or a state came or went.
  lemma ChangedIsWatched(a: Option<State>, b: Option<State>, liveA: Option<LiveSession>, liveB: Option<LiveSession>)
    ensures ContentChanged(a, b, liveA, liveB)
       <==> if a.Some? && b.Some? then WatchedIn(a.value, liveA) != WatchedIn(b.value, liveB)
            else a.Some? || b.Some?
  {
  }

  // A poll is idle exactly when nothing watched moved and neither upstream time advanced; before
  // and after any state at all, exactly when there is still none.
  lemma IdleInWords(prev: Snapshot, snap: Snapshot)
    ensures IsIdle(prev, snap)
       <==> if prev.state.Some? && snap.state.Some? then
              var (a, b) := (prev.state.value, snap.state.value);
              && WatchedIn(a, prev.live) == WatchedIn(b, snap.live)
              && b.pollOwned.lastUpdate <= a.pollOwned.lastUpdate
              && b.pollOwned.cloudLastSync <= a.pollOwned.cloudLastSync
            else prev.state.None? && snap.state.None?
  {
    ChangedIsWatched(prev.state, snap.state, prev.live, snap.live);
  }

  // ---------- One poll ----------

  function Dated(snap: Snapshot, now: Time): Snapshot {
    if IsZero(snap.fetchedAt) then snap.(fetchedAt := now) else snap
  }

  function Bumped(m: map<Derived, nat>, d: Derived): map<Derived, nat> {
    m[d := (if d in m then m[d] else 0) + 1]
  }

  // What a success writes: the change bookkeeping, the cost bookkeeping, the snapshot itself,
  // and the end of any failure.
  function Compared(h: Health, changed: bool, idle: bool, now: Time): Health {
    h.(changedCount := h.changedCount + if changed then 1 else 0,
       lastChangeAt := if changed then now else h.lastChangeAt,
       consecutiveIdle := if idle then h.consecutiveIdle + 1 else 0)
  }

  function Billed(h: Health, billed: bool, derived: Derived): Health {
    h.(vehicleDataFetches := h.vehicleDataFetches + if billed then 1 else 0,
       pollsByState := Bumped(h.pollsByState, derived))
  }

  function Served(h: Health, snap: Snapshot, now: Time): Health {
    h.(snapshot := Dated(snap, now), lastSuccessAt := now, lastBackoff := 0, successCount := h.successCount + 1)
  }

  function Healed(h: Health): Health {
    h.(consecutiveFailures := 0, needsReauth := false, telemetryConfigWiped := false, quotaBlockedUntil := ZERO,
       lastErr := None, backoffStep := 0)
  }

  function Succeeded(t: Tuning, h: Health, snap: Snapshot, s: Surroundings): Health {
    var changed := ContentChanged(h.snapshot.state, snap.state, h.snapshot.live, snap.live);
    var billed := Billed(Compared(h, changed, IsIdle(h.snapshot, snap), s.now),
                         PowerOf(snap) == PowerOnline, DeriveState(t.intervals, snap.state, snap.live));
    Healed(Served(billed, snap, s.now))
  }

  function JitteredDelay(t: Tuning, draw: real, d: Duration): Duration {
    Jittered(t.minInterval, d, Share(AtLeast(t.minInterval, d) as real, t.jitterPct, draw))
  }

  // idle counts this poll too.
  function SuccessDelay(t: Tuning, snap: Snapshot, idle: nat, s: Surroundings): Duration {
    var streaming := StreamFresh(t.intervals, s.lastStream, s.now);
    JitteredDelay(t, s.draw, IntervalFor(t.intervals, snap.state, snap.live, idle, streaming))
  }

  // The server's own delay wins over ours when it is longer.
  function AtLeastServer(d: Duration, e: PollError): Duration {
    if e.retryAfter.Some? && e.retryAfter.value > d then e.retryAfter.value else d
  }

  // step is how far the backoff has come.
  function ErrorDelay(t: Tuning, e: PollError, s: Surroundings, step: nat): Duration {
    if e.quotaBlocked then AtLeastServer(t.quotaBlockFloor, e)
    else AtLeastServer(AtLeast(t.minInterval, s.backoff(step)), e)
  }

  // What every error writes.
  function Noted(h: Health, e: PollError, now: Time, d: Duration): Health {
    h.(errorCount := h.errorCount + 1, consecutiveFailures := h.consecutiveFailures + 1, lastErr := Some(e),
       lastErrAt := now, lastBackoff := d)
  }

  function Blocked(h: Health, e: PollError, until: Time): Health {
    h.(quotaBlockedCount := h.quotaBlockedCount + 1, telemetryConfigWiped := e.telemetryWiped,
       quotaBlockedUntil := until, backoffStep := 0)
  }

  function Missed(t: Tuning, h: Health, e: PollError, s: Surroundings): Health {
    var d := ErrorDelay(t, e, s, h.backoffStep);
    var h1 := Noted(h, e, s.now, d);
    if e.quotaBlocked then Blocked(h1, e, s.now + d)
    else
      var h2 := h1.(backoffStep := h.backoffStep + 1);
      if e.unauthenticated then h2.(needsReauth := true)
      else if e.rateLimited then h2.(rateLimitedCount := h.rateLimitedCount + 1)
      else h2
  }

  function PollStep(t: Tuning, h: Health, r: PollResult, s: Surroundings): (Health, Duration) {
    match r
    case Polled(snap) =>
      var after := Succeeded(t, h, snap, s);
      (after, SuccessDelay(t, snap, after.consecutiveIdle, s))
    case Failed(e) => (Missed(t, h, e, s), ErrorDelay(t, e, s, h.backoffStep))
  }

  class Poller {
    const tuning: Tuning
    var snapshot: Snapshot
    var lastSuccessAt: Time
    var consecutiveIdle: nat
    var consecutiveFailures: nat
    var needsReauth: bool
    var lastBackoff: Duration
    var successCount: nat
    var errorCount: nat
    var rateLimitedCount: nat
    var quotaBlockedCount: nat
    var changedCount: nat
    var telemetryConfigWiped: bool
    var quotaBlockedUntil: Time
    var vehicleDataFetches: nat
    var pollsByState: map<Derived, nat>
    var lastErr: Option<PollError>
    var lastErrAt: Time
    var lastChangeAt: Time
    var backoffStep: nat
    var pollNow: bool   // the one-slot trigger channel

    ghost function Value(): Health
      reads this
    {
      Health(snapshot, lastSuccessAt, consecutiveIdle, consecutiveFailures, needsReauth, lastBackoff, successCount,
             errorCount, rateLimitedCount, quotaBlockedCount, changedCount, telemetryConfigWiped, quotaBlockedUntil,
             vehicleDataFetches, pollsByState, lastErr, lastErrAt, lastChangeAt, backoffStep)
    }

    constructor (tuning: Tuning)
      ensures this.tuning == tuning && Value() == NEW_HEALTH && !pollNow
    {
      this.tuning := tuning;
      snapshot, lastSuccessAt, consecutiveIdle, consecutiveFailures := ZERO_SNAPSHOT, ZERO, 0, 0;
      needsReauth, lastBackoff, successCount, errorCount := false, 0, 0, 0;
      rateLimitedCount, quotaBlockedCount, changedCount := 0, 0, 0;
      telemetryConfigWiped, quotaBlockedUntil, vehicleDataFetches, pollsByState := false, ZERO, 0, map[];
      lastErr, lastErrAt, lastChangeAt, backoffStep := None, ZERO, ZERO, 0;
      pollNow := false;
    }

    // Asks for an off-schedule poll unless one succeeded within the minimum interval; further
    // requests fold into one.
    method TriggerNow(now: Time)
      modifies this`pollNow
      ensures pollNow == (old(pollNow) || IsZero(lastSuccessAt) || Sub(now, lastSuccessAt) >= tuning.minInterval)
    {
      var tooSoon := !IsZero(lastSuccessAt) && Sub(now, lastSuccessAt) < tuning.minInterval;
      if tooSoon {
        return;
      }
      pollNow := true;
    }

    method PollOnce(r: PollResult, s: Surroundings) returns (delay: Duration)
      modifies this
      ensures (Value(), delay) == PollStep(tuning, old(Value()), r, s)
      ensures pollNow == old(pollNow)
    {
      match r {
        case Failed(e) => delay := HandleError(e, s);
        case Polled(snap) => delay := HandleSuccess(snap, s);
      }
    }

    // The change and idle bookkeeping, against the snapshot held before this poll.
    method CountChange(snap: Snapshot, now: Time) returns (changed: bool, idle: bool)
      modifies this`changedCount, this`consecutiveIdle, this`lastChangeAt
      ensures changed == ContentChanged(snapshot.state, snap.state, snapshot.live, snap.live)
      ensures idle == IsIdle(snapshot, snap)
      ensures Value() == Compared(old(Value()), changed, idle, now)
    {
      changed := ContentChanged(snapshot.state, snap.state, snapshot.live, snap.live);
      if changed {
        changedCount := changedCount + 1;
        lastChangeAt := now;
      }
      idle := !changed && !SyncAdvanced(snapshot.state, snap.state);
      if idle {
        consecutiveIdle := consecutiveIdle + 1;
      } else {
        consecutiveIdle := 0;
      }
    }

    // The cost and cadence bookkeeping: one count per derived state, one per billed fetch.
    method CountCost(snap: Snapshot) returns (billed: bool, derived: Derived)
      modifies this`pollsByState, this`vehicleDataFetches
      ensures billed == (PowerOf(snap) == PowerOnline)
      ensures derived == DeriveState(tuning.intervals, snap.state, snap.live)
      ensures Value() == Billed(old(Value()), billed, derived)
    {
      derived := DeriveState(tuning.intervals, snap.state, snap.live);
      pollsByState := Bumped(pollsByState, derived);
      billed := snap.state.Some? && snap.state.value.power == PowerOnline;
      if billed {
        vehicleDataFetches := vehicleDataFetches + 1;
      }
    }

    method MarkServed(snap: Snapshot, now: Time)
      modifies this`snapshot, this`lastSuccessAt, this`lastBackoff, this`successCount
      ensures Value() == Served(old(Value()), snap, now)
    {
      snapshot := if IsZero(snap.fetchedAt) then snap.(fetchedAt := now) else snap;
      lastSuccessAt := now;
      lastBackoff := 0;
      successCount := successCount + 1;
    }

    method ClearFailures()
      modifies this`consecutiveFailures, this`telemetryConfigWiped, this`quotaBlockedUntil, this`needsReauth,
               this`lastErr, this`backoffStep
      ensures Value() == Healed(old(Value()))
    {
      backoffStep := 0;
      lastErr := None;
      consecutiveFailures := 0;
      telemetryConfigWiped := false;
      quotaBlockedUntil := ZERO;
      needsReauth := false;
    }

    // The next delay, from the snapshot just polled and the idle count.
    method NextDelay(snap: Snapshot, s: Surroundings) returns (delay: Duration)
      ensures delay == SuccessDelay(tuning, snap, consecutiveIdle, s)
    {
      var streaming := StreamFresh(tuning.intervals, s.lastStream, s.now);
      var interval := IntervalFor(tuning.intervals, snap.state, snap.live, consecutiveIdle, streaming);
      delay := JitteredDelay(tuning, s.draw, interval);
    }

    method HandleSuccess(snap: Snapshot, s: Surroundings) returns (delay: Duration)
      modifies this
      ensures Value() == Succeeded(tuning, old(Value()), snap, s)
      ensures delay == SuccessDelay(tuning, snap, consecutiveIdle, s)
      ensures pollNow == old(pollNow)
    {
      var _, _ := CountChange(snap, s.now);
      var _, _ := CountCost(snap);
      MarkServed(snap, s.now);
      ClearFailures();
      delay := NextDelay(snap, s);
    }

    // What every error writes.
    method NoteError(e: PollError, now: Time, d: Duration)
      modifies this`errorCount, this`consecutiveFailures, this`lastErr, this`lastErrAt, this`lastBackoff
      ensures Value() == Noted(old(Value()), e, now, d)
    {
      errorCount := errorCount + 1;
      consecutiveFailures := consecutiveFailures + 1;
      lastErr := Some(e);
      lastErrAt := now;
      lastBackoff := d;
    }

    method HandleError(e: PollError, s: Surroundings) returns (delay: Duration)
      modifies this
      ensures Value() == Missed(tuning, old(Value()), e, s)
      ensures delay == ErrorDelay(tuning, e, s, old(backoffStep))
      ensures pollNow == old(pollNow)
    {
      if e.quotaBlocked {
        delay := HandleQuotaBlock(e, s);
        return;
      }
      delay := s.backoff(backoffStep);
      if delay < tuning.minInterval {
        delay := tuning.minInterval;
      }
      if e.retryAfter.Some? && e.retryAfter.value > delay {
        delay := e.retryAfter.value;
      }
      NoteError(e, s.now, delay);
      backoffStep := backoffStep + 1;
      if e.unauthenticated {
        needsReauth := true;
      } else if e.rateLimited {
        rateLimitedCount := rateLimitedCount + 1;
      }
    }

    method HandleQuotaBlock(e: PollError, s: Surroundings) returns (delay: Duration)
      requires e.quotaBlocked
      modifies this
      ensures Value() == Missed(tuning, old(Value()), e, s)
      ensures delay == ErrorDelay(tuning, e, s, old(backoffStep))
      ensures pollNow == old(pollNow)
    {
      delay := tuning.quotaBlockFloor;
      if e.retryAfter.Some? && e.retryAfter.value > delay {
        delay := e.retryAfter.value;
      }
      NoteError(e, s.now, delay);
      NoteBlock(e, s.now + delay);
    }

    // What a quota block writes besides; the backoff starts over.
    method NoteBlock(e: PollError, until: Time)
      modifies this`quotaBlockedCount, this`telemetryConfigWiped, this`quotaBlockedUntil, this`backoffStep
      ensures Value() == Blocked(old(Value()), e, until)
    {
      quotaBlockedCount := quotaBlockedCount + 1;
      telemetryConfigWiped := e.telemetryWiped;
      quotaBlockedUntil := until;
      backoffStep := 0;
    }
  }

  // ---------- Over any sequence of polls ----------

  datatype Attempt = Attempt(result: PollResult, s: Surroundings)

  function HealthAfter(t: Tuning, attempts: seq<Attempt>): Health {
    if attempts == [] then NEW_HEALTH
    else
      var a := attempts[|attempts| - 1];
      PollStep(t, HealthAfter(t, attempts[..|attempts| - 1]), a.result, a.s).0
  }

  function SuccessCount(attempts: seq<Attempt>): nat {
    if attempts == [] then 0
    else SuccessCount(attempts[..|attempts| - 1]) + if attempts[|attempts| - 1].result.Polled? then 1 else 0
  }

  function TrailingFailures(attempts: seq<Attempt>): nat {
    if attempts == [] || attempts[|attempts| - 1].result.Polled? then 0
    else TrailingFailures(attempts[..|attempts| - 1]) + 1
  }

  // How many ordinary errors in a row the backoff has seen: a success or a quota block starts
  // it over.
  function TrailingBackoffs(attempts: seq<Attempt>): nat {
    if attempts == [] then 0
    else
      var r := attempts[|attempts| - 1].result;
      if r.Polled? || r.error.quotaBlocked then 0 else TrailingBackoffs(attempts[..|attempts| - 1]) + 1
  }

  // The last snapshot any success brought; failures never drop it.
  function LastPolled(attempts: seq<Attempt>): Snapshot {
    if attempts == [] then ZERO_SNAPSHOT
    else
      var a := attempts[|attempts| - 1];
      if a.result.Polled? then Dated(a.result.snap, a.s.now) else LastPolled(attempts[..|attempts| - 1])
  }

  // Successes since the last one that brought a change or a fresh sync, failures skipped.
  function TrailingIdle(attempts: seq<Attempt>): nat {
    if attempts == [] then 0
    else
      var before, a := attempts[..|attempts| - 1], attempts[|attempts| - 1];
      if a.result.Failed? then TrailingIdle(before)
      else if IsIdle(LastPolled(before), a.result.snap) then TrailingIdle(before) + 1
      else 0
  }

  function Total(m: map<Derived, nat>): nat {
    Of(m, Driving) + Of(m, ChargingDc) + Of(m, ChargingAc) + Of(m, AsleepNow) + Of(m, OnlineNow) + Of(m, OfflineNow)
    + Of(m, UnknownNow)
  }

  function Of(m: map<Derived, nat>, d: Derived): nat {
    if d in m then m[d] else 0
  }

  lemma {:induction false} HealthIsHistory(t: Tuning, attempts: seq<Attempt>)
    ensures var h := HealthAfter(t, attempts);
            && h.snapshot == LastPolled(attempts)
            && h.consecutiveIdle == TrailingIdle(attempts)
            && h.consecutiveFailures == TrailingFailures(attempts)
            && h.backoffStep == TrailingBackoffs(attempts)
            && (h.lastErr.Some? <==> attempts != [] && attempts[|attempts| - 1].result.Failed?)
            && (h.lastErr.Some? ==> h.lastErr.value == attempts[|attempts| - 1].result.error)
  {
    if attempts != [] {
      HealthIsHistory(t, attempts[..|attempts| - 1]);
    }
  }

  // Every attempt is counted once, as a success or an error, and every success under one state.
  lemma {:induction false} TotalsAreHistory(t: Tuning, attempts: seq<Attempt>)
    ensures var h := HealthAfter(t, attempts);
            && h.successCount == SuccessCount(attempts)
            && h.successCount + h.errorCount == |attempts|
            && Total(h.pollsByState) == h.successCount
  {
    if attempts != [] {
      TotalsAreHistory(t, attempts[..|attempts| - 1]);
      TotalBumps(t, attempts);
    }
  }

  lemma TotalBumps(t: Tuning, attempts: seq<Attempt>)
    requires attempts != []
    ensures var before := HealthAfter(t, attempts[..|attempts| - 1]).pollsByState;
            Total(HealthAfter(t, attempts).pollsByState)
            == Total(before) + if attempts[|attempts| - 1].result.Polled? then 1 else 0
  {
    var a := attempts[|attempts| - 1];
    if a.result.Polled? {
      BumpedTotal(HealthAfter(t, attempts[..|attempts| - 1]).pollsByState,
                  DeriveState(t.intervals, a.result.snap.state, a.result.snap.live));
    }
  }

  lemma BumpedTotal(m: map<Derived, nat>, d: Derived)
    ensures Total(Bumped(m, d)) == Total(m) + 1
  {
  }

  // Every success and every error but a quota block waits at least the minimum interval, and
  // every error waits at least what the server asked for.
  lemma DelaysAreFloored(t: Tuning, h: Health, r: PollResult, s: Surroundings)
    ensures var delay := PollStep(t, h, r, s).1;
            && (r.Polled? || !r.error.quotaBlocked ==> t.minInterval <= delay)
            && (r.Failed? && r.error.retryAfter.Some? ==> r.error.retryAfter.value <= delay)
            && (r.Failed? && r.error.quotaBlocked ==> t.quotaBlockFloor <= delay)
  {
  }

  // Exactly how long an error waits: a quota block its floor, any other error the backoff's step
  // but at least the minimum interval; and the server's own delay when that is longer.
  lemma ErrorDelayInWords(t: Tuning, h: Health, e: PollError, s: Surroundings)
    ensures var delay := PollStep(t, h, Failed(e), s).1;
            var own := if e.quotaBlocked then t.quotaBlockFloor
                       else if s.backoff(h.backoffStep) < t.minInterval then t.minInterval
                       else s.backoff(h.backoffStep);
            delay == if e.retryAfter.Some? && own < e.retryAfter.value then e.retryAfter.value else own
  {
  }

  // The clock's view of a fresh stream.
  predicate Streaming(c: Intervals, s: Surroundings) {
    && c.drivingStreaming > 0 && s.lastStream != -62_135_596_800_000_000_000
    && s.now - s.lastStream < c.streamFreshWithin
  }

  predicate SoundIntervals(c: Intervals, idle: nat) {
    && 0 < c.online <= MAX_DURATION && 0 < c.fallback <= MAX_DURATION && 0 <= c.awakeBackoffCap <= MAX_DURATION
    && MIN_DURATION < c.streamFreshWithin <= MAX_DURATION
    && !Slips(c.online, idle, c.awakeBackoffCap) && !Slips(c.fallback, idle, c.awakeBackoffCap)
  }

  lemma DelayIsJittered(t: Tuning, h: Health, snap: Snapshot, s: Surroundings, expected: Duration)
    requires var idle := if IsIdle(h.snapshot, snap) then h.consecutiveIdle + 1 else 0;
             && SoundIntervals(t.intervals, idle)
             && CallsFor(t.intervals, snap.state, snap.live, idle, Streaming(t.intervals, s), expected)
    ensures PollStep(t, h, Polled(snap), s).1 == JitteredDelay(t, s.draw, expected)
  {
    var idle := if IsIdle(h.snapshot, snap) then h.consecutiveIdle + 1 else 0;
    StreamFreshInNumbers(t.intervals, s.lastStream, s.now);
    IntervalIsWhatIsCalledFor(t.intervals, snap.state, snap.live, idle, Streaming(t.intervals, s));
  }

  // After a success the next poll is due at the interval the snapshot calls for, or the minimum
  // if that is more, within the jitter fraction on both sides and never under the minimum.
  lemma NextPollIsDue(t: Tuning, h: Health, snap: Snapshot, s: Surroundings, expected: Duration)
    requires 0 <= t.minInterval && 0.0 <= t.jitterPct && 0.0 <= s.draw < 1.0
    requires var idle := if IsIdle(h.snapshot, snap) then h.consecutiveIdle + 1 else 0;
             && SoundIntervals(t.intervals, idle)
             && CallsFor(t.intervals, snap.state, snap.live, idle, Streaming(t.intervals, s), expected)
    ensures InBand(t.minInterval, expected, AtLeast(t.minInterval, expected) as real * t.jitterPct,
                   PollStep(t, h, Polled(snap), s).1)
  {
    DelayIsJittered(t, h, snap, s, expected);
    DelayIsInBand(t, s.draw, expected);
  }

  lemma DelayIsInBand(t: Tuning, draw: real, d: Duration)
    requires 0 <= t.minInterval && 0.0 <= t.jitterPct && 0.0 <= draw < 1.0
    ensures InBand(t.minInterval, d, AtLeast(t.minInterval, d) as real * t.jitterPct, JitteredDelay(t, draw, d))
  {
    var due := AtLeast(t.minInterval, d);
    ShareIsWithin(due as real, t.jitterPct, draw);
    JitterStaysClose(t.minInterval, d, Share(due as real, t.jitterPct, draw), due as real * t.jitterPct);
  }

  // ---------- Every other tally and latch ----------

  datatype Kind = Changes | Fetches | RateLimits | QuotaBlocks

  // Whether an attempt counts, given the snapshot held before it.
  predicate CountsAs(kind: Kind, before: Snapshot, r: PollResult) {
    match kind
    case Changes => r.Polled? && ContentChanged(before.state, r.snap.state, before.live, r.snap.live)
    case Fetches => r.Polled? && r.snap.state.Some? && r.snap.state.value.power == PowerOnline
    case RateLimits => r.Failed? && r.error.rateLimited && !r.error.unauthenticated && !r.error.quotaBlocked
    case QuotaBlocks => r.Failed? && r.error.quotaBlocked
  }

  function Tally(kind: Kind, attempts: seq<Attempt>): nat {
    if attempts == [] then 0
    else
      var before, a := attempts[..|attempts| - 1], attempts[|attempts| - 1];
      Tally(kind, before) + if CountsAs(kind, LastPolled(before), a.result) then 1 else 0
  }

  lemma {:induction false} TalliesAreHistory(t: Tuning, attempts: seq<Attempt>)
    ensures var h := HealthAfter(t, attempts);
            && h.changedCount == Tally(Changes, attempts) && h.vehicleDataFetches == Tally(Fetches, attempts)
            && h.rateLimitedCount == Tally(RateLimits, attempts) && h.quotaBlockedCount == Tally(QuotaBlocks, attempts)
  {
    if attempts != [] {
      TalliesAreHistory(t, attempts[..|attempts| - 1]);
      HealthIsHistory(t, attempts[..|attempts| - 1]);
    }
  }

  function StateTally(t: Tuning, d: Derived, attempts: seq<Attempt>): nat {
    if attempts == [] then 0
    else
      var r := attempts[|attempts| - 1].result;
      StateTally(t, d, attempts[..|attempts| - 1])
      + if r.Polled? && DeriveState(t.intervals, r.snap.state, r.snap.live) == d then 1 else 0
  }

  // Each derived state's count is the number of successes in that state.
  lemma {:induction false} StatesAreCounted(t: Tuning, d: Derived, attempts: seq<Attempt>)
    ensures Of(HealthAfter(t, attempts).pollsByState, d) == StateTally(t, d, attempts)
  {
    if attempts != [] {
      StatesAreCounted(t, d, attempts[..|attempts| - 1]);
    }
  }

  // An authentication failure stands until a success; so does a quota block's end and its word
  // on the telemetry configuration, unless a later block replaces them.
  function Unauthenticated(attempts: seq<Attempt>): bool {
    if attempts == [] then false
    else
      var r := attempts[|attempts| - 1].result;
      r.Failed? && ((r.error.unauthenticated && !r.error.quotaBlocked) || Unauthenticated(attempts[..|attempts| - 1]))
  }

  function LastBlock(attempts: seq<Attempt>): Option<Attempt> {
    if attempts == [] || attempts[|attempts| - 1].result.Polled? then None
    else if attempts[|attempts| - 1].result.error.quotaBlocked then Some(attempts[|attempts| - 1])
    else LastBlock(attempts[..|attempts| - 1])
  }

  predicate BlockHolds(t: Tuning, h: Health, block: Option<Attempt>) {
    match block
    case None => h.quotaBlockedUntil == ZERO && !h.telemetryConfigWiped
    case Some(a) =>
      a.result.Failed? ==>
        var e := a.result.error;
        var wait := if e.retryAfter.Some? && t.quotaBlockFloor < e.retryAfter.value then e.retryAfter.value
                    else t.quotaBlockFloor;
        h.quotaBlockedUntil == a.s.now + wait && h.telemetryConfigWiped == e.telemetryWiped
  }

  lemma {:induction false} LatchesAreHistory(t: Tuning, attempts: seq<Attempt>)
    ensures HealthAfter(t, attempts).needsReauth == Unauthenticated(attempts)
    ensures BlockHolds(t, HealthAfter(t, attempts), LastBlock(attempts))
  {
    if attempts != [] {
      LatchesAreHistory(t, attempts[..|attempts| - 1]);
    }
  }

  // The times of the last success, change and error, the last error's delay, and the snapshot,
  // which a failure keeps and a success replaces, dated now when it came without a date.
  lemma StampsOfOnePoll(t: Tuning, h: Health, r: PollResult, s: Surroundings)
    ensures var (after, delay) := PollStep(t, h, r, s);
            && after.lastSuccessAt == (if r.Polled? then s.now else h.lastSuccessAt)
            && after.lastErrAt == (if r.Failed? then s.now else h.lastErrAt)
            && after.lastBackoff == (if r.Failed? then delay else 0)
            && (after.lastChangeAt == if CountsAs(Changes, h.snapshot, r) then s.now else h.lastChangeAt)
            && (r.Failed? ==> after.snapshot == h.snapshot)
            && (r.Polled? ==>
                  && after.snapshot.(fetchedAt := ZERO) == r.snap.(fetchedAt := ZERO)
                  && after.snapshot.fetchedAt
                     == if r.snap.fetchedAt == -62_135_596_800_000_000_000 then s.now else r.snap.fetchedAt)
  {
  }
}
