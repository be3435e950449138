/** Telemetry as it lives on the heap: position, state and session objects, their cloning, and
    the table-driven copy of streamed fields, which shares positions between states. */
module SnapshotHeap {
  import opened Clock
  import opened Vehicle

  class LocObj {
    var v: Location

    constructor (v: Location)
      ensures this.v == v
    {
      this.v := v;
    }
  }

  function LocValue(l: LocObj?): Option<Location>
    reads l
  {
    if l == null then None else Some(l.v)
  }

  // v holds everything but the position, which is an object of its own.
  class StateObj {
    var v: State
    var loc: LocObj?

    function Value(): State
      reads this, loc
    {
      v.(location := LocValue(loc))
    }

    constructor (v: State, loc: LocObj?)
      ensures this.v == v && this.loc == loc
    {
      this.v, this.loc := v, loc;
    }

    // One row of the streamed-field table. The position's row shares the object.
    method CopyField(src: StateObj, f: StreamField)
      modifies this
      ensures Value() == CopiedOne(old(Value()), old(src.Value()), f)
    {
      match f {
        case StreamLoc => loc := src.loc;
        case StreamSpeed => v := v.(speedMps := src.v.speedMps);
        case StreamHeading => v := v.(headingDeg := src.v.headingDeg);
        case StreamGear => v := v.(gear := src.v.gear);
        case StreamOdometer => v := v.(odometerMeters := src.v.odometerMeters);
        case StreamSOC => v := v.(batteryLevelPct := src.v.batteryLevelPct);
        case StreamRange => v := v.(rangeKm := src.v.rangeKm);
        case StreamCabinTemp => v := v.(cabinTempC := src.v.cabinTempC);
        case StreamOutsideTemp => v := v.(outsideTempC := src.v.outsideTempC);
        case StreamTpmsFl => v := v.(tpmsFlBar := src.v.tpmsFlBar);
        case StreamTpmsFr => v := v.(tpmsFrBar := src.v.tpmsFrBar);
        case StreamTpmsRl => v := v.(tpmsRlBar := src.v.tpmsRlBar);
        case StreamTpmsRr => v := v.(tpmsRrBar := src.v.tpmsRrBar);
        case StreamChargeLimit => v := v.(batteryLimitPct := src.v.batteryLimitPct);
        case StreamTimeToFull => v := v.(timeToFullMin := src.v.timeToFullMin);
        case StreamChargerVoltage => v := v.(chargerVoltageV := src.v.chargerVoltageV);
        case StreamBatteryHeater => v := v.(batteryHeaterOn := src.v.batteryHeaterOn);
        case StreamLocked => v := v.(locks := src.v.locks);
        case StreamSentry => v := v.(gearGuardStatus := src.v.gearGuardStatus);
        case StreamChargeState => v := v.(charger := src.v.charger, plug := src.v.plug);
        case _ =>
      }
    }
  }

  class LiveObj {
    var v: LiveSession

    constructor (v: LiveSession)
      ensures this.v == v
    {
      this.v := v;
    }
  }

  function CopiedOne(d: State, s: State, f: StreamField): State {
    match f
    case StreamLoc => d.(location := s.location)
    case StreamSpeed => d.(speedMps := s.speedMps)
    case StreamHeading => d.(headingDeg := s.headingDeg)
    case StreamGear => d.(gear := s.gear)
    case StreamOdometer => d.(odometerMeters := s.odometerMeters)
    case StreamSOC => d.(batteryLevelPct := s.batteryLevelPct)
    case StreamRange => d.(rangeKm := s.rangeKm)
    case StreamCabinTemp => d.(cabinTempC := s.cabinTempC)
    case StreamOutsideTemp => d.(outsideTempC := s.outsideTempC)
    case StreamTpmsFl => d.(tpmsFlBar := s.tpmsFlBar)
    case StreamTpmsFr => d.(tpmsFrBar := s.tpmsFrBar)
    case StreamTpmsRl => d.(tpmsRlBar := s.tpmsRlBar)
    case StreamTpmsRr => d.(tpmsRrBar := s.tpmsRrBar)
    case StreamChargeLimit => d.(batteryLimitPct := s.batteryLimitPct)
    case StreamTimeToFull => d.(timeToFullMin := s.timeToFullMin)
    case StreamChargerVoltage => d.(chargerVoltageV := s.chargerVoltageV)
    case StreamBatteryHeater => d.(batteryHeaterOn := s.batteryHeaterOn)
    case StreamLocked => d.(locks := s.locks)
    case StreamSentry => d.(gearGuardStatus := s.gearGuardStatus)
    case StreamChargeState => d.(charger := s.charger, plug := s.plug)
    case _ => d
  }

  const STREAMED_FIELDS: seq<StreamField> := [
    StreamLoc, StreamSpeed, StreamHeading, StreamGear, StreamOdometer, StreamSOC, StreamRange,
    StreamCabinTemp, StreamOutsideTemp, StreamTpmsFl, StreamTpmsFr, StreamTpmsRl, StreamTpmsRr,
    StreamChargeLimit, StreamTimeToFull, StreamChargerVoltage, StreamChargeState, StreamBatteryHeater,
    StreamLocked, StreamSentry]

  lemma RowIsPerField(d: State, s: State, f: StreamField, g: StreamField)
    ensures Get(CopiedOne(d, s, f), g) == Get(if f == g then s else d, g)
    ensures CopiedOne(d, s, f).power == d.power && CopiedOne(d, s, f).pollOwned == d.pollOwned
  {
  }

  lemma CopyOneMore(d: State, s: State, done: Fields, f: StreamField)
    ensures CopiedOne(Copied(d, s, done), s, f) == Copied(d, s, done + {f})
  {
    var a, b := CopiedOne(Copied(d, s, done), s, f), Copied(d, s, done + {f});
    forall g
      ensures SameAt(a, b, g)
    {
      RowIsPerField(Copied(d, s, done), s, f, g);
      CopyIsPerField(d, s, done, g);
      CopyIsPerField(d, s, done + {f}, g);
    }
    RowIsPerField(Copied(d, s, done), s, f, f);
    FieldsDetermineState(a, b);
  }

  // The three fields of the charge session have no row: they live outside the state.
  predicate SessionField(f: StreamField) {
    f == StreamChargePower || f == StreamChargeCurrent || f == StreamChargeEnergyIn
  }

  // Where a field's row stands.
  function Row(f: StreamField): (i: nat)
    requires !SessionField(f)
    ensures i < |STREAMED_FIELDS|
  {
    match f
    case StreamLoc => 0
    case StreamSpeed => 1
    case StreamHeading => 2
    case StreamGear => 3
    case StreamOdometer => 4
    case StreamSOC => 5
    case StreamRange => 6
    case StreamCabinTemp => 7
    case StreamOutsideTemp => 8
    case StreamTpmsFl => 9
    case StreamTpmsFr => 10
    case StreamTpmsRl => 11
    case StreamTpmsRr => 12
    case StreamChargeLimit => 13
    case StreamTimeToFull => 14
    case StreamChargerVoltage => 15
    case StreamChargeState => 16
    case StreamBatteryHeater => 17
    case StreamLocked => 18
    case StreamSentry => 19
  }

  // Every other streamed field has one, of its own.
  lemma TableIsComplete(f: StreamField)
    requires !SessionField(f)
    ensures STREAMED_FIELDS[Row(f)] == f && f in STREAMED_FIELDS
  {
  }

  lemma TableCopies(d: State, s: State, done: Fields, present: Fields)
    requires forall f :: !SessionField(f) ==> (f in done <==> f in present)
    ensures Copied(d, s, done) == Copied(d, s, present)
  {
  }

  method CopyStreamed(dst: StateObj, src: StateObj, present: Fields)
    requires dst != src
    modifies dst
    ensures dst.Value() == Copied(old(dst.Value()), src.Value(), present)
  {
    ghost var done: Fields := {};
    for i := 0 to |STREAMED_FIELDS|
      invariant dst.Value() == Copied(old(dst.Value()), src.Value(), done)
      invariant src.Value() == old(src.Value())
      invariant forall f :: f in done <==> f in STREAMED_FIELDS[..i] && f in present
    {
      var f := STREAMED_FIELDS[i];
      if f in present {
        dst.CopyField(src, f);
        CopyOneMore(old(dst.Value()), src.Value(), done, f);
        done := done + {f};
      }
    }
    assert STREAMED_FIELDS[..|STREAMED_FIELDS|] == STREAMED_FIELDS;
    forall f | !SessionField(f)
      ensures f in done <==> f in present
    {
      TableIsComplete(f);
    }
    TableCopies(old(dst.Value()), src.Value(), done, present);
  }

  // A snapshot as it is stored and handed out: by value, but sharing its objects.
  datatype SnapRef = SnapRef(
    state: StateObj?,
    live: LiveObj?,
    fetchedAt: Time,
    streamFields: Time,
    streamPresent: Fields,
    asOf: Time)

  // The position object a state points at.
  function LocOf(s: StateObj?): LocObj?
    reads s
  {
    if s == null then null else s.loc
  }

  ghost function Cell(s: StateObj?): set<StateObj> {
    if s == null then {} else {s}
  }

  function StateValue(s: StateObj?): Option<State>
    reads s, LocOf(s)
  {
    if s == null then None else Some(s.Value())
  }

  function LiveValue(l: LiveObj?): Option<LiveSession>
    reads l
  {
    if l == null then None else Some(l.v)
  }

  function ValueOf(s: SnapRef): Snapshot
    reads s.state, LocOf(s.state), s.live
  {
    Snapshot(StateValue(s.state), LiveValue(s.live), s.fetchedAt, s.streamFields, s.streamPresent, s.asOf)
  }

  method CloneState(s: StateObj?) returns (c: StateObj?)
    ensures StateValue(c) == StateValue(s)
    ensures c != null ==> fresh(c) && (c.loc != null ==> fresh(c.loc))
  {
    if s == null {
      return null;
    }
    var loc: LocObj? := null;
    if s.loc != null {
      loc := new LocObj(s.loc.v);
    }
    c := new StateObj(s.v, loc);
  }
}
