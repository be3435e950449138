/** The data:update codec as a pair: what survives encoding and decoding, and when encoding
    again gives the same line. */
module RoundTrip {
  import opened Clock
  import opened Vehicle
  import opened Text
  import opened Units
  import opened DataUpdate

  // ---------- What is asked of the host library's numerals ----------

  predicate Legible(s: string) {
    s != "" && Plain(s)
  }

  ghost predicate SoundIntegers(n: Numerals) {
    && n.itoa(0) == "0"
    && forall k: int ::
         Legible(n.itoa(k)) && n.parseFloat(n.itoa(k)) == Some(k as real) && n.parseInt(n.itoa(k)) == Some(k)
  }

  predicate RoundTripsAt(n: Numerals, x: real) {
    Legible(n.ftoa(x)) && n.parseFloat(n.ftoa(x)) == Some(x)
  }

  // The shortest-decimal format is faithful on the three values this state prints with it.
  predicate SoundDecimals(n: Numerals, st: State) {
    && RoundTripsAt(n, MetersToMiles(st.odometerMeters as real))
    && (st.location.Some? ==>
          RoundTripsAt(n, st.location.value.latitude) && RoundTripsAt(n, st.location.value.longitude))
  }

  // ---------- Through the line ----------

  function Stamp(s: Snapshot): int {
    UnixMilli(AsOfTime(s))
  }

  function Encoded(n: Numerals, tag: string, s: Snapshot): Frame
    requires s.state.Some?
  {
    EncodeFrame(tag, n.itoa(Stamp(s)), Columns(n, s.state.value, s.live))
  }

  function Line(n: Numerals, s: Snapshot): seq<string>
    requires s.state.Some?
  {
    [n.itoa(Stamp(s))] + Columns(n, s.state.value, s.live)
  }

  lemma LineIsPlain(n: Numerals, s: Snapshot)
    requires s.state.Some? && SoundIntegers(n) && SoundDecimals(n, s.state.value)
    ensures forall i :: 0 <= i < |Line(n, s)| ==> Plain(Line(n, s)[i])
  {
    assert Plain("");
    assert Plain(ShiftState(s.state.value.gear));
    assert Plain(n.itoa(0));
  }

  // No cell is lost, merged or split on the wire.
  lemma LineSurvives(n: Numerals, tag: string, s: Snapshot)
    requires s.state.Some? && SoundIntegers(n) && SoundDecimals(n, s.state.value)
    ensures Split(Encoded(n, tag, s).value) == Line(n, s)
  {
    LineIsPlain(n, s);
    SplitJoin(Line(n, s));
  }

  function Shown(nonZero: bool, k: int): Option<real> {
    if nonZero then Some(k as real) else None
  }

  // What a reader of the line learns from it.
  function Legend(s: Snapshot, now: Time): Readings
    requires s.state.Some?
  {
    var st := s.state.value;
    Readings(
      if Stamp(s) > 0 then Stamp(s) * MILLISECOND else now,
      Shown(st.speedMps != 0.0, Round(MpsToMph(st.speedMps))),
      if st.odometerMeters != 0 then Some(MetersToMiles(st.odometerMeters as real)) else None,
      Shown(st.batteryLevelPct != 0.0, Round(st.batteryLevelPct)),
      Shown(st.headingDeg != 0.0, Round(st.headingDeg)),
      if st.location.Some? then Some((st.location.value.latitude, st.location.value.longitude)) else None,
      if s.live.Some? && s.live.value.powerKw != 0.0 then Some(Round(s.live.value.powerKw) as real)
      else Shown(st.power == PowerOnline && st.location.Some?, 0),
      if st.location.Some? then st.gear else GearUnknown,
      Shown(st.rangeKm != 0, Round(KmToMiles(st.rangeKm as real))))
  }

  lemma CellIsKept(n: Numerals, s: Snapshot, i: nat)
    requires s.state.Some? && SoundIntegers(n) && SoundDecimals(n, s.state.value)
    requires i < 13
    ensures Cell(Line(n, s), i) == Line(n, s)[i]
  {
    LineIsPlain(n, s);
  }

  lemma ShiftRoundTrip(g: Gear)
    ensures g != GearUnknown ==> GearFromTesla(ShiftState(g)) == g
  {
  }

  // The cells with one number each.
  lemma NumbersRead(n: Numerals, s: Snapshot, now: Time)
    requires s.state.Some? && SoundIntegers(n) && SoundDecimals(n, s.state.value)
    requires forall i: nat :: i < 13 ==> Cell(Line(n, s), i) == Line(n, s)[i]
    ensures var r, want := ReadingsOf(n, Line(n, s), now), Legend(s, now);
            && r.ts == want.ts && r.speedMph == want.speedMph && r.odometerMi == want.odometerMi
            && r.soc == want.soc && r.heading == want.heading && r.rangeMi == want.rangeMi
  {
  }

  lemma PlaceReads(n: Numerals, s: Snapshot, now: Time)
    requires s.state.Some? && SoundIntegers(n) && SoundDecimals(n, s.state.value)
    requires forall i: nat :: i < 13 ==> Cell(Line(n, s), i) == Line(n, s)[i]
    ensures var r, want := ReadingsOf(n, Line(n, s), now), Legend(s, now);
            r.place == want.place && r.powerKw == want.powerKw && r.gear == want.gear
  {
    ShiftRoundTrip(s.state.value.gear);
  }

  lemma LineReads(n: Numerals, s: Snapshot, now: Time)
    requires s.state.Some? && SoundIntegers(n) && SoundDecimals(n, s.state.value)
    ensures ReadingsOf(n, Line(n, s), now) == Legend(s, now)
  {
    forall i: nat | i < 13
      ensures Cell(Line(n, s), i) == Line(n, s)[i]
    {
      CellIsKept(n, s, i);
    }
    NumbersRead(n, s, now);
    PlaceReads(n, s, now);
  }

  // Decoding an encoded frame gives the tag and what the line says, at any receive time.
  lemma DecodeOfEncode(n: Numerals, tag: string, s: Snapshot, now: Time)
    requires s.state.Some? && SoundIntegers(n) && SoundDecimals(n, s.state.value)
    ensures DecodeFrame(n, Encoded(n, tag, s), now) == Some((tag, Assembled(Legend(s, now), now)))
  {
    LineSurvives(n, tag, s);
    LineReads(n, s, now);
  }

  // Odometer exactly; position exactly, and the selector exactly beside a position; charge
  // level and heading to the nearest unit; speed within half a mile per hour; range within
  // one kilometre.
  predicate CloseTo(a: State, b: State) {
    && b.odometerMeters == a.odometerMeters
    && (a.location.Some? <==> b.location.Some?)
    && (a.location.Some? ==>
          && b.location.value.latitude == a.location.value.latitude
          && b.location.value.longitude == a.location.value.longitude
          && b.gear == a.gear)
    && -0.5 * MPS_PER_MPH <= b.speedMps - a.speedMps <= 0.5 * MPS_PER_MPH
    && b.batteryLevelPct == Round(a.batteryLevelPct) as real
    && b.headingDeg == Round(a.headingDeg) as real
    && -1 <= b.rangeKm - a.rangeKm <= 1
  }

  // A field is marked present exactly when it was sent.
  predicate MarksWhatWasSent(a: State, present: Fields) {
    && (StreamOdometer in present <==> a.odometerMeters != 0)
    && (StreamLoc in present <==> a.location.Some?)
    && (StreamGear in present <==> a.location.Some? && a.gear != GearUnknown)
    && (StreamSpeed in present <==> a.speedMps != 0.0)
    && (StreamSOC in present <==> a.batteryLevelPct != 0.0)
    && (StreamHeading in present <==> a.headingDeg != 0.0)
    && (StreamRange in present <==> a.rangeKm != 0)
  }

  lemma LegendIsClose(s: Snapshot, now: Time)
    requires s.state.Some?
    ensures var got := Assembled(Legend(s, now), now);
            got.state.Some? && CloseTo(s.state.value, got.state.value)
  {
    var a := s.state.value;
    OdometerRoundTrip(a.odometerMeters);
    RangeWithinOneKm(a.rangeKm);
    SpeedWithinHalf(a.speedMps);
    RoundWhole(0);
  }

  lemma LegendMarks(s: Snapshot, now: Time)
    requires s.state.Some?
    ensures MarksWhatWasSent(s.state.value, Assembled(Legend(s, now), now).streamPresent)
  {
  }

  // Only charge power comes back, to the nearest kilowatt and only when that is positive; it is
  // then marked, and nothing else of the session is known.
  predicate SessionComesBack(sent: Option<LiveSession>, got: Snapshot) {
    var kw := if sent.Some? then Round(sent.value.powerKw) else 0;
    && (got.live.Some? <==> kw > 0) && (StreamChargePower in got.streamPresent <==> kw > 0)
    && (kw > 0 ==> got.live == Some(LiveSession(kw as real, 0.0, 0.0, 0, false)))
  }

  lemma LegendSession(s: Snapshot, now: Time)
    requires s.state.Some?
    ensures SessionComesBack(s.live, Assembled(Legend(s, now), now))
  {
    RoundWhole(0);
  }

  // The tag and the telemetry come back, whatever the receive time.
  lemma CodecRoundTrip(n: Numerals, tag: string, s: Snapshot, now: Time)
    requires s.state.Some? && SoundIntegers(n) && SoundDecimals(n, s.state.value)
    ensures var got := DecodeFrame(n, Encoded(n, tag, s), now);
            && got.Some? && got.value.0 == tag && got.value.1.state.Some?
            && CloseTo(s.state.value, got.value.1.state.value)
            && MarksWhatWasSent(s.state.value, got.value.1.streamPresent)
            && SessionComesBack(s.live, got.value.1)
            && (AsOfTime(s) >= 1_000_000 ==> 0 <= AsOfTime(s) - got.value.1.streamFields < 1_000_000)
            && (AsOfTime(s) < 1_000_000 ==> got.value.1.streamFields == now)
            && got.value.1.fetchedAt == now
            && (s.state.value.location.Some? ==>
                  got.value.1.state.value.location.value.timeStamp == got.value.1.streamFields)
  {
    DecodeOfEncode(n, tag, s, now);
    LegendIsClose(s, now);
    LegendMarks(s, now);
    LegendSession(s, now);
  }

  lemma SpeedWithinHalf(mps: real)
    ensures var back := MphToMps(Round(MpsToMph(mps)) as real);
            -0.5 * MPS_PER_MPH <= back - mps <= 0.5 * MPS_PER_MPH
  {
    assert MpsToMph(mps) * MPS_PER_MPH == mps;
  }

  // ---------- Encoding again ----------

  predicate NoneRoundsToZero(st: State) {
    && (st.speedMps != 0.0 ==> Round(MpsToMph(st.speedMps)) != 0)
    && (st.batteryLevelPct != 0.0 ==> Round(st.batteryLevelPct) != 0)
    && (st.headingDeg != 0.0 ==> Round(st.headingDeg) != 0)
  }

  lemma NumeralsDiffer(n: Numerals, k: int)
    requires SoundIntegers(n)
    ensures n.itoa(k) != ""
  {
    assert Legible(n.itoa(k));
  }

  lemma MphRoundTrip(mph: int)
    ensures Round(MpsToMph(MphToMps(mph as real))) == mph
    ensures MphToMps(mph as real) == 0.0 <==> mph == 0
  {
    assert MpsToMph(MphToMps(mph as real)) == mph as real;
    RoundWhole(mph);
  }

  lemma RangeNotZero(miles: int)
    ensures Round(MilesToKm(miles as real)) == 0 <==> miles == 0
  {
    MileKmMile(miles);
    RoundWhole(0);
  }

  predicate SameButPower(a: seq<string>, b: seq<string>)
    requires |a| == |b| == NUM_COLUMNS
  {
    forall i :: 0 <= i < NUM_COLUMNS && i != 7 ==> a[i] == b[i]
  }

  // The numeric columns of a state read back from whole numerals.
  lemma SpeedColumnStable(n: Numerals, a: State, b: State)
    requires SoundIntegers(n)
    requires b.speedMps == if a.speedMps != 0.0 then MphToMps(Round(MpsToMph(a.speedMps)) as real) else 0.0
    ensures Columns(n, b, None)[0] == Columns(n, a, None)[0]
       <==> (a.speedMps != 0.0 ==> Round(MpsToMph(a.speedMps)) != 0)
  {
    MphRoundTrip(Round(MpsToMph(a.speedMps)));
    NumeralsDiffer(n, 0);
  }

  lemma RoundedStable(n: Numerals, x: real)
    requires SoundIntegers(n)
    ensures var y := if x != 0.0 then Round(x) as real else 0.0;
            Rounded(n, y) == Rounded(n, x) <==> (x != 0.0 ==> Round(x) != 0)
  {
    RoundWhole(Round(x));
    NumeralsDiffer(n, 0);
  }

  lemma RangeColumnStable(n: Numerals, a: State, b: State)
    requires b.rangeKm == if a.rangeKm != 0 then Round(MilesToKm(Round(KmToMiles(a.rangeKm as real)) as real)) else 0
    ensures Columns(n, b, None)[9] == Columns(n, a, None)[9]
  {
    RangeWithinOneKm(a.rangeKm);
    MileKmMile(Round(KmToMiles(a.rangeKm as real)));
    RangeNotZero(Round(KmToMiles(a.rangeKm as real)));
  }

  lemma ExactColumnsStable(n: Numerals, a: State, b: State, live: Option<LiveSession>, live': Option<LiveSession>)
    requires CloseTo(a, b)
    ensures var (x, y) := (Columns(n, b, live'), Columns(n, a, live));
            x[1] == y[1] && x[3] == y[3] && x[5] == y[5] && x[6] == y[6] && x[8] == y[8] && x[10] == y[10]
  {
  }

  // The four numbers that come back from whole numerals.
  predicate ReadBack(a: State, b: State) {
    && b.speedMps == (if a.speedMps != 0.0 then MphToMps(Round(MpsToMph(a.speedMps)) as real) else 0.0)
    && b.batteryLevelPct == (if a.batteryLevelPct != 0.0 then Round(a.batteryLevelPct) as real else 0.0)
    && b.headingDeg == (if a.headingDeg != 0.0 then Round(a.headingDeg) as real else 0.0)
    && b.rangeKm
       == (if a.rangeKm != 0 then Round(MilesToKm(Round(KmToMiles(a.rangeKm as real)) as real)) else 0)
  }

  lemma LegendReadsBack(s: Snapshot, now: Time)
    requires s.state.Some?
    ensures ReadBack(s.state.value, Assembled(Legend(s, now), now).state.value)
  {
  }

  lemma StatesReencode(n: Numerals, a: State, b: State, live: Option<LiveSession>, live': Option<LiveSession>)
    requires SoundIntegers(n) && CloseTo(a, b) && ReadBack(a, b)
    ensures SameButPower(Columns(n, b, live'), Columns(n, a, live)) <==> NoneRoundsToZero(a)
  {
    ExactColumnsStable(n, a, b, live, live');
    RangeColumnStable(n, a, b);
    SpeedColumnStable(n, a, b);
    RoundedStable(n, a.batteryLevelPct);
    RoundedStable(n, a.headingDeg);
    var x, y := Columns(n, b, live'), Columns(n, a, live);
    assert x[9] == y[9];
    assert x[0] == y[0] <==> (a.speedMps != 0.0 ==> Round(MpsToMph(a.speedMps)) != 0);
    assert x[2] == y[2] <==> (a.batteryLevelPct != 0.0 ==> Round(a.batteryLevelPct) != 0);
    assert x[4] == y[4] <==> (a.headingDeg != 0.0 ==> Round(a.headingDeg) != 0);
    assert x[11] == x[4] && y[11] == y[4];
  }

  // Re-encoding the decoded snapshot reproduces every column but power exactly when no
  // non-zero speed, charge level or heading rounds to zero.
  lemma ReencodingIsStable(n: Numerals, tag: string, s: Snapshot, now: Time)
    requires s.state.Some? && SoundIntegers(n) && SoundDecimals(n, s.state.value)
    ensures var got := DecodeFrame(n, Encoded(n, tag, s), now);
            && got.Some? && got.value.1.state.Some?
            && (SameButPower(Columns(n, got.value.1.state.value, got.value.1.live), Columns(n, s.state.value, s.live))
                <==> NoneRoundsToZero(s.state.value))
  {
    DecodeOfEncode(n, tag, s, now);
    var got := Assembled(Legend(s, now), now);
    LegendIsClose(s, now);
    LegendReadsBack(s, now);
    StatesReencode(n, s.state.value, got.state.value, s.live, got.live);
  }
}
