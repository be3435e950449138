/** The canonical vehicle model: telemetry, live charging session, and the snapshot the
    cache serves. A presence bitmask is a set of the fields whose bit is set. */
module Vehicle {
  import opened Clock

  datatype Option<+T> = None | Some(value: T)

  datatype Power = PowerUnknown | PowerOffline | PowerOnline | PowerSleep
  datatype Gear = GearUnknown | GearPark | GearDrive | GearReverse | GearNeutral
  datatype ChargerState = ChargerUnknown | ChargerIdle | ChargerCharging | ChargerDisconnect
  datatype ChargePlug = PlugUnknown | PlugDisconnected | PlugConnected

  datatype Location = Location(latitude: real, longitude: real, timeStamp: Time)

  datatype Locks = Locks(frontLeft: string, frontRight: string, rearLeft: string, rearRight: string)

  // The telemetry only a poll reports, as far as the modelled code reads it; extras
  // stands for the rest (seats, doors, windows, update progress), which it only copies.
  datatype PollOwned = PollOwned(
    lastUpdate: Time,
    cloudLastSync: Time,
    drivePowerKw: Option<real>,
    chargePortOpen: bool,
    carType: string,
    trimBadging: string,
    otaVersion: string,
    extras: map<string, string>)

  datatype State = State(
    power: Power,
    location: Option<Location>,
    speedMps: real,
    headingDeg: real,
    gear: Gear,
    odometerMeters: int,
    batteryLevelPct: real,
    rangeKm: int,
    cabinTempC: real,
    outsideTempC: real,
    tpmsFlBar: real,
    tpmsFrBar: real,
    tpmsRlBar: real,
    tpmsRrBar: real,
    batteryLimitPct: real,
    timeToFullMin: int,
    chargerVoltageV: int,
    charger: ChargerState,
    plug: ChargePlug,
    batteryHeaterOn: bool,
    locks: Locks,
    gearGuardStatus: string,
    pollOwned: PollOwned)

  const ZERO_STATE := State(
    PowerUnknown, None, 0.0, 0.0, GearUnknown, 0, 0.0, 0, 0.0, 0.0, 0.0, 0.0, 0.0, 0.0, 0.0, 0, 0,
    ChargerUnknown, PlugUnknown, false, Locks("", "", "", ""), "",
    PollOwned(ZERO, ZERO, None, false, "", "", "", map[]))

  datatype LiveSession = LiveSession(
    powerKw: real,
    currentA: real,
    totalChargedEnergy: real,
    timeRemainingSec: int,
    fastCharger: bool)

  datatype StreamField =
    | StreamLoc | StreamSpeed | StreamHeading | StreamGear | StreamOdometer | StreamSOC | StreamRange
    | StreamChargePower | StreamCabinTemp | StreamOutsideTemp
    | StreamTpmsFl | StreamTpmsFr | StreamTpmsRl | StreamTpmsRr
    | StreamChargeLimit | StreamTimeToFull | StreamChargerVoltage | StreamChargeCurrent
    | StreamChargeState | StreamBatteryHeater | StreamLocked | StreamSentry | StreamChargeEnergyIn

  type Fields = set<StreamField>

  datatype Snapshot = Snapshot(
    state: Option<State>,
    live: Option<LiveSession>,
    fetchedAt: Time,
    streamFields: Time,
    streamPresent: Fields,
    asOf: Time)

  const ZERO_SNAPSHOT := Snapshot(None, None, ZERO, ZERO, {}, ZERO)

  function AsOfTime(s: Snapshot): Time {
    if !IsZero(s.asOf) then s.asOf
    else if After(s.streamFields, s.fetchedAt) then s.streamFields
    else s.fetchedAt
  }

  // The stamped time, else the later of the two times the snapshot is made of.
  lemma AsOfTimeInWords(s: Snapshot)
    ensures s.asOf != -62_135_596_800_000_000_000 ==> AsOfTime(s) == s.asOf
    ensures s.asOf == -62_135_596_800_000_000_000 ==>
              && s.fetchedAt <= AsOfTime(s) && s.streamFields <= AsOfTime(s)
              && (AsOfTime(s) == s.fetchedAt || AsOfTime(s) == s.streamFields)
  {
  }

  function GearOf(s: Snapshot): Gear {
    if s.state.None? then GearUnknown else s.state.value.gear
  }

  function PowerOf(s: Snapshot): Power {
    if s.state.None? then PowerUnknown else s.state.value.power
  }

  // A moving selector: drive, reverse or neutral.
  predicate InDrive(g: Gear) {
    g == GearDrive || g == GearReverse || g == GearNeutral
  }

  predicate Asleep(s: Snapshot) {
    s.state.Some? && s.state.value.power == PowerSleep
  }

  // ---------- Streamed fields ----------

  datatype FieldValue =
    | Num(num: real) | Whole(whole: int) | Fix(fix: Option<Location>) | Selector(gear: Gear)
    | Charge(charger: ChargerState, plug: ChargePlug) | Flag(flag: bool) | Doors(locks: Locks)
    | Text(text: string) | NotInState

  // The part of a state that one streamed field's bit stands for. The three charge-session
  // fields live outside the state.
  function Get(s: State, f: StreamField): FieldValue {
    match f
    case StreamLoc => Fix(s.location)
    case StreamSpeed => Num(s.speedMps)
    case StreamHeading => Num(s.headingDeg)
    case StreamGear => Selector(s.gear)
    case StreamOdometer => Whole(s.odometerMeters)
    case StreamSOC => Num(s.batteryLevelPct)
    case StreamRange => Whole(s.rangeKm)
    case StreamCabinTemp => Num(s.cabinTempC)
    case StreamOutsideTemp => Num(s.outsideTempC)
    case StreamTpmsFl => Num(s.tpmsFlBar)
    case StreamTpmsFr => Num(s.tpmsFrBar)
    case StreamTpmsRl => Num(s.tpmsRlBar)
    case StreamTpmsRr => Num(s.tpmsRrBar)
    case StreamChargeLimit => Num(s.batteryLimitPct)
    case StreamTimeToFull => Whole(s.timeToFullMin)
    case StreamChargerVoltage => Whole(s.chargerVoltageV)
    case StreamChargeState => Charge(s.charger, s.plug)
    case StreamBatteryHeater => Flag(s.batteryHeaterOn)
    case StreamLocked => Doors(s.locks)
    case StreamSentry => Text(s.gearGuardStatus)
    case StreamChargePower => NotInState
    case StreamChargeCurrent => NotInState
    case StreamChargeEnergyIn => NotInState
  }

  // dst with every streamed field named in present taken from src.
  function Copied(dst: State, src: State, present: Fields): State {
    State(
      dst.power,
      if StreamLoc in present then src.location else dst.location,
      if StreamSpeed in present then src.speedMps else dst.speedMps,
      if StreamHeading in present then src.headingDeg else dst.headingDeg,
      if StreamGear in present then src.gear else dst.gear,
      if StreamOdometer in present then src.odometerMeters else dst.odometerMeters,
      if StreamSOC in present then src.batteryLevelPct else dst.batteryLevelPct,
      if StreamRange in present then src.rangeKm else dst.rangeKm,
      if StreamCabinTemp in present then src.cabinTempC else dst.cabinTempC,
      if StreamOutsideTemp in present then src.outsideTempC else dst.outsideTempC,
      if StreamTpmsFl in present then src.tpmsFlBar else dst.tpmsFlBar,
      if StreamTpmsFr in present then src.tpmsFrBar else dst.tpmsFrBar,
      if StreamTpmsRl in present then src.tpmsRlBar else dst.tpmsRlBar,
      if StreamTpmsRr in present then src.tpmsRrBar else dst.tpmsRrBar,
      if StreamChargeLimit in present then src.batteryLimitPct else dst.batteryLimitPct,
      if StreamTimeToFull in present then src.timeToFullMin else dst.timeToFullMin,
      if StreamChargerVoltage in present then src.chargerVoltageV else dst.chargerVoltageV,
      if StreamChargeState in present then src.charger else dst.charger,
      if StreamChargeState in present then src.plug else dst.plug,
      if StreamBatteryHeater in present then src.batteryHeaterOn else dst.batteryHeaterOn,
      if StreamLocked in present then src.locks else dst.locks,
      if StreamSentry in present then src.gearGuardStatus else dst.gearGuardStatus,
      dst.pollOwned)
  }

  // No field's bit moves any other field, and no bit moves liveness or a poll-owned field.
  lemma CopyIsPerField(dst: State, src: State, present: Fields, f: StreamField)
    ensures Get(Copied(dst, src, present), f) == Get(if f in present then src else dst, f)
    ensures Copied(dst, src, present).power == dst.power
    ensures Copied(dst, src, present).pollOwned == dst.pollOwned
  {
  }

  // A state is its streamed fields plus liveness plus what polls own.
  lemma FieldsDetermineState(a: State, b: State)
    requires forall f :: SameAt(a, b, f)
    requires a.power == b.power && a.pollOwned == b.pollOwned
    ensures a == b
  {
    assert a.location == b.location by { assert SameAt(a, b, StreamLoc); }
    assert a.speedMps == b.speedMps by { assert SameAt(a, b, StreamSpeed); }
    assert a.headingDeg == b.headingDeg by { assert SameAt(a, b, StreamHeading); }
    assert a.gear == b.gear by { assert SameAt(a, b, StreamGear); }
    assert a.odometerMeters == b.odometerMeters by { assert SameAt(a, b, StreamOdometer); }
    assert a.batteryLevelPct == b.batteryLevelPct by { assert SameAt(a, b, StreamSOC); }
    assert a.rangeKm == b.rangeKm by { assert SameAt(a, b, StreamRange); }
    assert a.cabinTempC == b.cabinTempC by { assert SameAt(a, b, StreamCabinTemp); }
    assert a.outsideTempC == b.outsideTempC by { assert SameAt(a, b, StreamOutsideTemp); }
    assert a.tpmsFlBar == b.tpmsFlBar by { assert SameAt(a, b, StreamTpmsFl); }
    assert a.tpmsFrBar == b.tpmsFrBar by { assert SameAt(a, b, StreamTpmsFr); }
    assert a.tpmsRlBar == b.tpmsRlBar by { assert SameAt(a, b, StreamTpmsRl); }
    assert a.tpmsRrBar == b.tpmsRrBar by { assert SameAt(a, b, StreamTpmsRr); }
    assert a.batteryLimitPct == b.batteryLimitPct by { assert SameAt(a, b, StreamChargeLimit); }
    assert a.timeToFullMin == b.timeToFullMin by { assert SameAt(a, b, StreamTimeToFull); }
    assert a.chargerVoltageV == b.chargerVoltageV by { assert SameAt(a, b, StreamChargerVoltage); }
    assert a.charger == b.charger && a.plug == b.plug by { assert SameAt(a, b, StreamChargeState); }
    assert a.batteryHeaterOn == b.batteryHeaterOn by { assert SameAt(a, b, StreamBatteryHeater); }
    assert a.locks == b.locks by { assert SameAt(a, b, StreamLocked); }
    assert a.gearGuardStatus == b.gearGuardStatus by { assert SameAt(a, b, StreamSentry); }
  }

  predicate SameAt(a: State, b: State, f: StreamField) {
    Get(a, f) == Get(b, f)
  }
}
