/** The poll cadence: how long the loop waits after a poll, in 64-bit durations. */
module Cadence {
  import opened Clock
  import opened Vehicle
  import opened Words
  import opened Units

  const IDLE_GRACE := 3
  const MAX_STEPS := 20

  // ---------- Stretching an idle cadence ----------

  function Pow2(n: nat): (p: nat)
    ensures 1 <= p
  {
    if n == 0 then 1 else 2 * Pow2(n - 1)
  }

  function Steps(idle: nat): nat
    requires IDLE_GRACE < idle
  {
    if idle - IDLE_GRACE > MAX_STEPS then MAX_STEPS else idle - IDLE_GRACE
  }

  function Ceiling(base: Duration, ceil: Duration): Duration {
    if ceil < base then base else ceil
  }

  function Stretch(base: Duration, idle: nat, ceil: Duration): Duration {
    if idle <= IDLE_GRACE then base
    else
      var d := Wrap64(base * Pow2(Steps(idle)));
      if d <= 0 || d > Ceiling(base, ceil) then Ceiling(base, ceil) else d
  }

  // The doubling that was meant, without a word size: after three idle polls once more with
  // each, twenty times at most, up to the ceiling or the base if that is more.
  function Doubled(base: int, idle: nat, ceil: int): int {
    if idle <= 3 then base
    else
      var most := if ceil < base then base else ceil;
      var d := base * Pow2(if idle < 23 then idle - 3 else 20);
      if d < most then d else most
  }

  // The shift overflows and still leaves a positive value under the ceiling.
  predicate Slips(base: Duration, idle: nat, ceil: Duration) {
    && IDLE_GRACE < idle
    && base * Pow2(Steps(idle)) >= TWO_63
    && 0 < Wrap64(base * Pow2(Steps(idle))) < Ceiling(base, ceil)
  }

  lemma {:induction false} Pow2Monotone(a: nat, b: nat)
    requires a <= b
    ensures Pow2(a) <= Pow2(b)
  {
    if a < b {
      Pow2Monotone(a, b - 1);
    }
  }

  lemma ProductMonotone(base: Duration, p: nat, q: nat)
    requires 0 < base && p <= q
    ensures 0 < base * p + (if p == 0 then 1 else 0) && base * p <= base * q
  {
    assert base * q - base * p == base * (q - p);
  }

  // The cadence is the doubling that was meant exactly when the shift does not slip.
  lemma StretchIsDoublingExactly(base: Duration, idle: nat, ceil: Duration)
    requires 0 < base <= MAX_DURATION && 0 <= ceil <= MAX_DURATION
    ensures Stretch(base, idle, ceil) == Doubled(base, idle, ceil) <==> !Slips(base, idle, ceil)
  {
    if IDLE_GRACE < idle {
      ProductMonotone(base, 1, Pow2(Steps(idle)));
      WrapIsIdentity(base * Pow2(Steps(idle)));
    }
  }

  // A base under 2^44 nanoseconds (four hours and fifty-three minutes) never slips, although
  // it may overflow: the cadence doubles with each idle poll, never falls below its base and
  // never shrinks.
  lemma ShortBaseNeverSlips(base: Duration, idle: nat, ceil: Duration)
    requires 0 < base < 0x1000_0000_0000 && 0 <= ceil <= MAX_DURATION
    ensures Stretch(base, idle, ceil) == Doubled(base, idle, ceil)
    ensures base <= Stretch(base, idle, ceil) <= if ceil < base then base else ceil
    ensures Stretch(base, idle, ceil) <= Stretch(base, idle + 1, ceil)
  {
    ShortProduct(base, idle);
    ShortProduct(base, idle + 1);
    StretchIsDoublingExactly(base, idle, ceil);
    StretchIsDoublingExactly(base, idle + 1, ceil);
    if IDLE_GRACE < idle {
      ProductMonotone(base, 1, Pow2(Steps(idle)));
      Pow2Monotone(Steps(idle), Steps(idle + 1));
      ProductMonotone(base, Pow2(Steps(idle)), Pow2(Steps(idle + 1)));
    } else {
      ProductMonotone(base, 1, Pow2(Steps(IDLE_GRACE + 1)));
    }
  }

  lemma TwoToTwenty()
    ensures Pow2(MAX_STEPS) == 0x10_0000
  {
    assert Pow2(5) == 32;
    assert Pow2(10) == 1024;
    assert Pow2(15) == 32768;
  }

  lemma ShortProduct(base: Duration, idle: nat)
    requires 0 < base < 0x1000_0000_0000
    ensures IDLE_GRACE < idle ==> 0 < base * Pow2(Steps(idle)) < TWO_64
    ensures forall ceil: Duration :: !Slips(base, idle, ceil)
  {
    if IDLE_GRACE < idle {
      Pow2Monotone(Steps(idle), MAX_STEPS);
      TwoToTwenty();
      ProductMonotone(base, Pow2(Steps(idle)), 0x10_0000);
    }
  }

  // One nanosecond past that, a long-idle car's interval is a millisecond, and its delay falls
  // to the floor.
  lemma LongBaseSlips()
    ensures Stretch(0x1000_0000_0001, 23, 0) == 0x10_0000
  {
    TwoToTwenty();
    assert 0x1000_0000_0001 * 0x10_0000 == TWO_64 + 0x10_0000;
  }

  // ---------- Jitter ----------

  function AtLeast(min: Duration, d: Duration): Duration {
    if d < min then min else d
  }

  // The draw u in [0, 1) picks a share of the base within the fraction on either side.
  function Share(base: real, pct: real, u: real): real {
    (u * 2.0 - 1.0) * (base * pct)
  }

  // The delay moved by the share, in whole nanoseconds, and floored.
  function Jittered(min: Duration, d: Duration, share: real): (out: Duration)
    ensures min <= out
  {
    AtLeast(min, AtLeast(min, d) + Truncated(share))
  }

  lemma ProductIsNonNegative(x: real, y: real)
    requires 0.0 <= x && 0.0 <= y
    ensures 0.0 <= x * y
  {
  }

  lemma ShareIsWithin(base: real, pct: real, u: real)
    requires 0.0 <= u < 1.0 && 0.0 <= base && 0.0 <= pct
    ensures -(base * pct) <= Share(base, pct, u) <= base * pct
  {
    var spread := base * pct;
    ProductIsNonNegative(base, pct);
    ProductIsNonNegative(u, spread);
    ProductIsNonNegative(1.0 - u, spread);
    assert (1.0 - u) * spread == spread - u * spread;
    assert (u * 2.0 - 1.0) * spread == 2.0 * (u * spread) - spread;
  }

  // The middle of the draw moves nothing, its start goes the whole fraction down.
  lemma ShareEnds(base: real, pct: real)
    ensures Share(base, pct, 0.0) == -(base * pct) && Share(base, pct, 0.5) == 0.0
  {
  }

  // A delay is due at its interval, or at the minimum if that is more.
  predicate InBand(min: Duration, d: Duration, spread: real, delay: Duration) {
    var due := if d < min then min else d;
    && min <= delay
    && (delay == min || due as real - spread <= delay as real)
    && delay as real <= due as real + spread
  }

  // A share within the spread leaves the delay within it.
  lemma JitterStaysClose(min: Duration, d: Duration, share: real, spread: real)
    requires -spread <= share <= spread
    ensures InBand(min, d, spread, Jittered(min, d, share))
  {
  }

  // And the delay moves by exactly the share, to within a nanosecond, until it meets the floor.
  lemma JitterIsTheShare(min: Duration, d: Duration, share: real)
    ensures var due := if d < min then min else d;
            var out := Jittered(min, d, share);
            && min <= out && due as real + share - 1.0 < out as real
            && (out > min ==> out as real < due as real + share + 1.0)
  {
  }

  // ---------- Choosing the cadence ----------

  datatype Intervals = Intervals(
    online: Duration,
    driving: Duration,
    charging: Duration,
    chargingDc: Duration,
    asleep: Duration,
    fallback: Duration,
    drivingStreaming: Duration,
    streamFreshWithin: Duration,
    awakeBackoffCap: Duration,
    dcThresholdKw: real)

  datatype Derived = Driving | ChargingDc | ChargingAc | AsleepNow | OnlineNow | OfflineNow | UnknownNow

  predicate IsDriving(st: Option<State>) {
    st.Some? && InDrive(st.value.gear)
  }

  predicate IsCharging(st: Option<State>, live: Option<LiveSession>) {
    live.Some? || (st.Some? && st.value.charger == ChargerCharging)
  }

  predicate IsDc(live: Option<LiveSession>, thresholdKw: real) {
    live.Some? && (live.value.fastCharger || (thresholdKw > 0.0 && live.value.powerKw >= thresholdKw))
  }

  function DeriveState(c: Intervals, st: Option<State>, live: Option<LiveSession>): Derived {
    if IsDriving(st) then Driving
    else if IsCharging(st, live) then if IsDc(live, c.dcThresholdKw) then ChargingDc else ChargingAc
    else if st.Some? && st.value.power == PowerSleep then AsleepNow
    else if st.Some? && st.value.power == PowerOnline then OnlineNow
    else if st.Some? && st.value.power == PowerOffline then OfflineNow
    else UnknownNow
  }

  // lastStream is when a frame last refreshed the vehicle, the zero instant when no stream
  // is wired.
  predicate StreamFresh(c: Intervals, lastStream: Time, now: Time) {
    c.drivingStreaming > 0 && !IsZero(lastStream) && Sub(now, lastStream) < c.streamFreshWithin
  }

  function IntervalFor(c: Intervals, st: Option<State>, live: Option<LiveSession>, idle: nat, flowing: bool): Duration {
    if IsDriving(st) then if flowing then c.drivingStreaming else c.driving
    else if IsCharging(st, live) then if IsDc(live, c.dcThresholdKw) then c.chargingDc else c.charging
    else if st.Some? && st.value.power == PowerSleep then c.asleep
    else if st.Some? && st.value.power == PowerOnline then Stretch(c.online, idle, c.awakeBackoffCap)
    else Stretch(c.fallback, idle, c.awakeBackoffCap)
  }

  // The derived state a poll is counted under is all of it the cadence depends on.
  lemma CadenceFollowsDerivedState(c: Intervals, a: Option<State>, liveA: Option<LiveSession>, b: Option<State>,
                                   liveB: Option<LiveSession>, idle: nat, flow: bool)
    requires DeriveState(c, a, liveA) == DeriveState(c, b, liveB)
    ensures IntervalFor(c, a, liveA, idle, flow) == IntervalFor(c, b, liveB, idle, flow)
  {
  }

  // A driving, charging or sleeping car is never stretched, however long it sits idle.
  lemma OnlyParkedIsStretched(c: Intervals, st: Option<State>, live: Option<LiveSession>, idle: nat, flow: bool)
    requires IntervalFor(c, st, live, idle, flow) != IntervalFor(c, st, live, 0, flow)
    ensures var d := DeriveState(c, st, live); d == OnlineNow || d == OfflineNow || d == UnknownNow
    ensures IDLE_GRACE < idle
  {
  }

  // ---------- The cadence, case by case ----------

  predicate Moving(st: Option<State>) {
    st.Some? && (st.value.gear == GearDrive || st.value.gear == GearReverse || st.value.gear == GearNeutral)
  }

  predicate AtCharger(st: Option<State>, live: Option<LiveSession>) {
    live.Some? || (st.Some? && st.value.charger == ChargerCharging)
  }

  predicate OnDc(c: Intervals, live: Option<LiveSession>) {
    live.Some? && (live.value.fastCharger || (0.0 < c.dcThresholdKw <= live.value.powerKw))
  }

  // The interval a snapshot calls for: expected is the one its case names, in this order.
  predicate CallsFor(c: Intervals, st: Option<State>, live: Option<LiveSession>, idle: nat, streaming: bool,
                     expected: Duration)
  {
    && (Moving(st) && streaming ==> expected == c.drivingStreaming)
    && (Moving(st) && !streaming ==> expected == c.driving)
    && (!Moving(st) && AtCharger(st, live) && OnDc(c, live) ==> expected == c.chargingDc)
    && (!Moving(st) && AtCharger(st, live) && !OnDc(c, live) ==> expected == c.charging)
    && (!Moving(st) && !AtCharger(st, live) ==>
          && (st.Some? && st.value.power == PowerSleep ==> expected == c.asleep)
          && (st.Some? && st.value.power == PowerOnline ==> expected == Doubled(c.online, idle, c.awakeBackoffCap))
          && (st.None? || st.value.power == PowerOffline || st.value.power == PowerUnknown ==>
                expected == Doubled(c.fallback, idle, c.awakeBackoffCap)))
  }

  lemma IntervalIsWhatIsCalledFor(c: Intervals, st: Option<State>, live: Option<LiveSession>, idle: nat, flow: bool)
    requires 0 < c.online <= MAX_DURATION && 0 < c.fallback <= MAX_DURATION && 0 <= c.awakeBackoffCap <= MAX_DURATION
    requires !Slips(c.online, idle, c.awakeBackoffCap) && !Slips(c.fallback, idle, c.awakeBackoffCap)
    ensures CallsFor(c, st, live, idle, flow, IntervalFor(c, st, live, idle, flow))
  {
    StretchIsDoublingExactly(c.online, idle, c.awakeBackoffCap);
    StretchIsDoublingExactly(c.fallback, idle, c.awakeBackoffCap);
  }

  // A stream is fresh when one is wired, its back-off is on, and a frame came within the window.
  lemma StreamFreshInNumbers(c: Intervals, lastStream: Time, now: Time)
    requires MIN_DURATION < c.streamFreshWithin <= MAX_DURATION
    ensures StreamFresh(c, lastStream, now)
       <==> && c.drivingStreaming > 0 && lastStream != -62_135_596_800_000_000_000
            && now - lastStream < c.streamFreshWithin
  {
  }

  // The name a poll is counted under, case by case.
  lemma DerivedInWords(c: Intervals, st: Option<State>, live: Option<LiveSession>)
    ensures var d := DeriveState(c, st, live);
            && (Moving(st) <==> d == Driving)
            && (!Moving(st) && AtCharger(st, live) ==> d == if OnDc(c, live) then ChargingDc else ChargingAc)
            && (!Moving(st) && !AtCharger(st, live) ==>
                  && (d == AsleepNow <==> st.Some? && st.value.power == PowerSleep)
                  && (d == OnlineNow <==> st.Some? && st.value.power == PowerOnline)
                  && (d == OfflineNow <==> st.Some? && st.value.power == PowerOffline)
                  && (d == UnknownNow <==> st.None? || st.value.power == PowerUnknown))
  {
  }
}
