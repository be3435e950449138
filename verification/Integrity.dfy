/** The stream-integrity gate: a frame's odometer, position, charge level and speed are
    cross-checked against what is served, and a rejected field loses its presence bit. */
module Integrity {
  import opened Clock
  import opened Vehicle

  const MAX_SPEED_MPS := 150.0
  const MAX_GROUND_SPEED_MPS := 150.0
  const ODOMETER_SLACK_METERS := 2
  const MIN_ELAPSED := SECOND
  const MIN_TELEPORT_METERS := 100.0

  // Ground distance in metres between two latitude/longitude pairs.
  type Metric = (real, real, real, real) -> real

  datatype Reason = OdometerRegress | GpsTeleport | SocRange | SpeedRange

  function Elapsed(since: Time, now: Time): (e: Duration)
    ensures MIN_ELAPSED <= e
  {
    if Sub(now, since) < MIN_ELAPSED then MIN_ELAPSED else Sub(now, since)
  }

  function Distance(metric: Metric, a: Location, b: Location): real {
    metric(a.latitude, a.longitude, b.latitude, b.longitude)
  }

  // ---------- What a plausible pair of readings is, in products rather than quotients ----------

  predicate OdometerPaced(v0: int, t0: Time, v: int, t: Time) {
    && -ODOMETER_SLACK_METERS <= v - v0
    && (v - v0) as real * 1_000_000_000.0 <= MAX_GROUND_SPEED_MPS * Elapsed(t0, t) as real
  }

  predicate PositionPaced(metric: Metric, l0: Location, t0: Time, l: Location, t: Time) {
    var d := Distance(metric, l0, l);
    d <= MIN_TELEPORT_METERS || d * 1_000_000_000.0 <= MAX_GROUND_SPEED_MPS * Elapsed(t0, t) as real
  }

  predicate SocPlausible(pct: real) {
    0.0 <= pct <= 100.0
  }

  predicate SpeedPlausible(mps: real) {
    0.0 <= mps <= MAX_SPEED_MPS
  }

  // ---------- The gate ----------

  predicate RejectsSoc(next: State, present: Fields) {
    StreamSOC in present && (next.batteryLevelPct < 0.0 || next.batteryLevelPct > 100.0)
  }

  predicate RejectsSpeed(next: State, present: Fields) {
    StreamSpeed in present && (next.speedMps < 0.0 || next.speedMps > MAX_SPEED_MPS)
  }

  predicate RejectsOdometer(prev: State, next: State, present: Fields, odoAt: Time, now: Time) {
    && StreamOdometer in present
    && prev.odometerMeters > 0
    && var delta := next.odometerMeters - prev.odometerMeters;
       delta < -ODOMETER_SLACK_METERS
       || delta as real / Seconds(Elapsed(odoAt, now)) > MAX_GROUND_SPEED_MPS
  }

  predicate RejectsLoc(metric: Metric, prev: State, next: State, present: Fields, gpsAt: Time, now: Time) {
    && StreamLoc in present
    && next.location.Some?
    && prev.location.Some?
    && var dist := Distance(metric, prev.location.value, next.location.value);
       dist > MIN_TELEPORT_METERS && dist / Seconds(Elapsed(gpsAt, now)) > MAX_GROUND_SPEED_MPS
  }

  // One check of the gate: a bad field loses its bit and leaves its reason.
  function Strike(g: (Fields, seq<Reason>), bad: bool, bit: StreamField, reason: Reason): (Fields, seq<Reason>) {
    if bad then (g.0 - {bit}, g.1 + [reason]) else g
  }

  // Presence bits left after the four checks, and the reasons in order.
  function Gate(metric: Metric, prev: Option<State>, next: Option<State>, present: Fields,
                gpsAt: Time, odoAt: Time, now: Time): (Fields, seq<Reason>)
  {
    if next.None? then (present, [])
    else
      var n := next.value;
      var g1 := Strike((present, []), RejectsSoc(n, present), StreamSOC, SocRange);
      var g2 := Strike(g1, RejectsSpeed(n, present), StreamSpeed, SpeedRange);
      var g3 := Strike(g2, prev.Some? && RejectsOdometer(prev.value, n, present, odoAt, now),
                       StreamOdometer, OdometerRegress);
      Strike(g3, prev.Some? && RejectsLoc(metric, prev.value, n, present, gpsAt, now), StreamLoc, GpsTeleport)
  }

  method GateStream(metric: Metric, prev: Option<State>, next: Option<State>, present: Fields,
                    gpsAt: Time, odoAt: Time, now: Time)
    returns (gated: Fields, reasons: seq<Reason>)
    ensures (gated, reasons) == Gate(metric, prev, next, present, gpsAt, odoAt, now)
  {
    gated, reasons := present, [];
    if next.None? {
      return;
    }
    var n := next.value;
    ghost var g1 := Strike((present, []), RejectsSoc(n, present), StreamSOC, SocRange);
    ghost var g2 := Strike(g1, RejectsSpeed(n, present), StreamSpeed, SpeedRange);
    if StreamSOC in gated && (n.batteryLevelPct < 0.0 || n.batteryLevelPct > 100.0) {
      gated, reasons := gated - {StreamSOC}, reasons + [SocRange];
    }
    if StreamSpeed in gated && (n.speedMps < 0.0 || n.speedMps > MAX_SPEED_MPS) {
      gated, reasons := gated - {StreamSpeed}, reasons + [SpeedRange];
    }
    assert (gated, reasons) == g2;
    if prev.None? {
      return;
    }
    var p := prev.value;
    ghost var g3 := Strike(g2, RejectsOdometer(p, n, present, odoAt, now), StreamOdometer, OdometerRegress);
    if StreamOdometer in gated && p.odometerMeters > 0 {
      var delta := n.odometerMeters - p.odometerMeters;
      if delta < -ODOMETER_SLACK_METERS {
        gated, reasons := gated - {StreamOdometer}, reasons + [OdometerRegress];
      } else if delta as real / Seconds(Elapsed(odoAt, now)) > MAX_GROUND_SPEED_MPS {
        gated, reasons := gated - {StreamOdometer}, reasons + [OdometerRegress];
      }
    }
    assert (gated, reasons) == g3;
    if StreamLoc in gated && n.location.Some? && p.location.Some? {
      var dist := Distance(metric, p.location.value, n.location.value);
      if dist > MIN_TELEPORT_METERS && dist / Seconds(Elapsed(gpsAt, now)) > MAX_GROUND_SPEED_MPS {
        gated, reasons := gated - {StreamLoc}, reasons + [GpsTeleport];
      }
    }
  }

  // One field's bit survives exactly when the frame's reading is plausible against the
  // reading served for that same field at that field's own time. No other field matters.
  predicate Admits(metric: Metric, prev: Option<State>, next: State, f: StreamField,
                   gpsAt: Time, odoAt: Time, now: Time)
  {
    match f
    case StreamSOC => SocPlausible(next.batteryLevelPct)
    case StreamSpeed => SpeedPlausible(next.speedMps)
    case StreamOdometer =>
      prev.Some? && prev.value.odometerMeters > 0 ==>
        OdometerPaced(prev.value.odometerMeters, odoAt, next.odometerMeters, now)
    case StreamLoc =>
      prev.Some? && prev.value.location.Some? && next.location.Some? ==>
        PositionPaced(metric, prev.value.location.value, gpsAt, next.location.value, now)
    case _ => true
  }

  lemma GateIsExact(metric: Metric, prev: Option<State>, next: State, present: Fields,
                    gpsAt: Time, odoAt: Time, now: Time, f: StreamField)
    ensures f in Gate(metric, prev, Some(next), present, gpsAt, odoAt, now).0
       <==> f in present && Admits(metric, prev, next, f, gpsAt, odoAt, now)
  {
    if prev.Some? {
      RateAsProduct((next.odometerMeters - prev.value.odometerMeters) as real, Elapsed(odoAt, now),
                    MAX_GROUND_SPEED_MPS);
      if prev.value.location.Some? && next.location.Some? {
        RateAsProduct(Distance(metric, prev.value.location.value, next.location.value), Elapsed(gpsAt, now),
                      MAX_GROUND_SPEED_MPS);
      }
    }
  }

  // ---------- In numbers ----------

  // The time a reading is judged over: the nanoseconds since the served one, at least a second
  // and at most what a 64-bit duration holds.
  function Window(since: int, now: int): int {
    if now - since < 1_000_000_000 then 1_000_000_000
    else if now - since > 9_223_372_036_854_775_807 then 9_223_372_036_854_775_807
    else now - since
  }

  // The gate's verdict on each field, with every bound written out: a bit is lost exactly by a
  // charge level outside [0, 100], a speed outside [0, 150] m/s, an odometer step back of more
  // than 2 m or ahead faster than 150 m/s, and a move of more than 100 m faster than 150 m/s.
  lemma GateInNumbers(metric: Metric, prev: Option<State>, next: State, present: Fields,
                      gpsAt: Time, odoAt: Time, now: Time)
    ensures var kept := Gate(metric, prev, Some(next), present, gpsAt, odoAt, now).0;
            && (StreamSOC in kept <==> StreamSOC in present && 0.0 <= next.batteryLevelPct <= 100.0)
            && (StreamSpeed in kept <==> StreamSpeed in present && 0.0 <= next.speedMps <= 150.0)
            && (StreamOdometer in kept <==>
                  && StreamOdometer in present
                  && (prev.Some? && prev.value.odometerMeters > 0 ==>
                        var step := next.odometerMeters - prev.value.odometerMeters;
                        step >= -2 && step * 1_000_000_000 <= 150 * Window(odoAt, now)))
            && (StreamLoc in kept <==>
                  && StreamLoc in present
                  && (prev.Some? && prev.value.location.Some? && next.location.Some? ==>
                        var (p, q) := (prev.value.location.value, next.location.value);
                        var move := metric(p.latitude, p.longitude, q.latitude, q.longitude);
                        move <= 100.0 || move * 1_000_000_000.0 <= 150.0 * Window(gpsAt, now) as real))
  {
    GateIsExact(metric, prev, next, present, gpsAt, odoAt, now, StreamSOC);
    GateIsExact(metric, prev, next, present, gpsAt, odoAt, now, StreamSpeed);
    GateIsExact(metric, prev, next, present, gpsAt, odoAt, now, StreamOdometer);
    GateIsExact(metric, prev, next, present, gpsAt, odoAt, now, StreamLoc);
  }

  // No other field is ever judged, and a frame without a state is not judged at all.
  lemma OtherFieldsPass(metric: Metric, prev: Option<State>, next: Option<State>, present: Fields,
                        gpsAt: Time, odoAt: Time, now: Time, f: StreamField)
    requires next.None? || (f != StreamSOC && f != StreamSpeed && f != StreamOdometer && f != StreamLoc)
    ensures f in Gate(metric, prev, next, present, gpsAt, odoAt, now).0 <==> f in present
  {
  }

  lemma StrikeCounts(present: Fields, g: (Fields, seq<Reason>), bad: bool, bit: StreamField, reason: Reason)
    requires g.0 <= present && |g.1| == |present - g.0|
    requires bad ==> bit in g.0
    ensures var h := Strike(g, bad, bit, reason);
            h.0 <= present && |h.1| == |present - h.0|
  {
    if bad {
      assert present - (g.0 - {bit}) == (present - g.0) + {bit};
    }
  }

  // Every cleared bit is accounted for by exactly one reason.
  lemma ReasonsCountClearedBits(metric: Metric, prev: Option<State>, next: Option<State>, present: Fields,
                                gpsAt: Time, odoAt: Time, now: Time)
    ensures var (gated, reasons) := Gate(metric, prev, next, present, gpsAt, odoAt, now);
            gated <= present && |reasons| == |present - gated|
  {
    assert present - present == {};
    if next.Some? {
      var n := next.value;
      var odo := prev.Some? && RejectsOdometer(prev.value, n, present, odoAt, now);
      var loc := prev.Some? && RejectsLoc(metric, prev.value, n, present, gpsAt, now);
      var g0: (Fields, seq<Reason>) := (present, []);
      StrikeCounts(present, g0, RejectsSoc(n, present), StreamSOC, SocRange);
      var g1 := Strike(g0, RejectsSoc(n, present), StreamSOC, SocRange);
      StrikeCounts(present, g1, RejectsSpeed(n, present), StreamSpeed, SpeedRange);
      var g2 := Strike(g1, RejectsSpeed(n, present), StreamSpeed, SpeedRange);
      StrikeCounts(present, g2, odo, StreamOdometer, OdometerRegress);
      StrikeCounts(present, Strike(g2, odo, StreamOdometer, OdometerRegress), loc, StreamLoc, GpsTeleport);
    }
  }

  function BitOf(r: Reason): StreamField {
    match r
    case OdometerRegress => StreamOdometer
    case GpsTeleport => StreamLoc
    case SocRange => StreamSOC
    case SpeedRange => StreamSpeed
  }

  // A reason is recorded exactly when the bit it names is cleared.
  lemma ReasonNamesClearedBit(metric: Metric, prev: Option<State>, next: Option<State>, present: Fields,
                              gpsAt: Time, odoAt: Time, now: Time, r: Reason)
    ensures var (gated, reasons) := Gate(metric, prev, next, present, gpsAt, odoAt, now);
            r in reasons <==> BitOf(r) in present - gated
  {
  }

  // ---------- Counters ----------

  datatype Counts = Counts(odometerRegress: nat, gpsTeleport: nat, socRange: nat, speedRange: nat) {
    function Total(): nat {
      odometerRegress + gpsTeleport + socRange + speedRange
    }
  }

  const NO_COUNTS := Counts(0, 0, 0, 0)

  function Counted(c: Counts, r: Reason): Counts {
    match r
    case OdometerRegress => c.(odometerRegress := c.odometerRegress + 1)
    case GpsTeleport => c.(gpsTeleport := c.gpsTeleport + 1)
    case SocRange => c.(socRange := c.socRange + 1)
    case SpeedRange => c.(speedRange := c.speedRange + 1)
  }

  function CountedAll(c: Counts, rs: seq<Reason>): (r: Counts)
    ensures r.Total() == c.Total() + |rs|
  {
    if rs == [] then c else Counted(CountedAll(c, rs[..|rs| - 1]), rs[|rs| - 1])
  }

  function Times(r: Reason, rs: seq<Reason>): nat {
    if rs == [] then 0 else Times(r, rs[..|rs| - 1]) + if rs[|rs| - 1] == r then 1 else 0
  }

  // Each counter counts its own reason.
  lemma {:induction false} CountersByReason(c: Counts, rs: seq<Reason>)
    ensures var after := CountedAll(c, rs);
            && after.odometerRegress == c.odometerRegress + Times(OdometerRegress, rs)
            && after.gpsTeleport == c.gpsTeleport + Times(GpsTeleport, rs)
            && after.socRange == c.socRange + Times(SocRange, rs)
            && after.speedRange == c.speedRange + Times(SpeedRange, rs)
  {
    if rs != [] {
      CountersByReason(c, rs[..|rs| - 1]);
    }
  }

  /** The rejection counters shared by every vehicle. */
  class IntegrityCounters {
    var odometerRegress: nat
    var gpsTeleport: nat
    var socRange: nat
    var speedRange: nat

    ghost function Value(): Counts
      reads this
    {
      Counts(odometerRegress, gpsTeleport, socRange, speedRange)
    }

    constructor ()
      ensures Value() == NO_COUNTS
    {
      odometerRegress, gpsTeleport, socRange, speedRange := 0, 0, 0, 0;
    }

    method Inc(r: Reason)
      modifies this
      ensures Value() == Counted(old(Value()), r)
    {
      match r {
        case OdometerRegress => odometerRegress := odometerRegress + 1;
        case GpsTeleport => gpsTeleport := gpsTeleport + 1;
        case SocRange => socRange := socRange + 1;
        case SpeedRange => speedRange := speedRange + 1;
      }
    }

    method IncAll(rs: seq<Reason>)
      modifies this
      ensures Value() == CountedAll(old(Value()), rs)
    {
      for i := 0 to |rs|
        invariant Value() == CountedAll(old(Value()), rs[..i])
      {
        assert rs[..i + 1][..i] == rs[..i];
        Inc(rs[i]);
      }
      assert rs[..|rs|] == rs;
    }
  }
}
