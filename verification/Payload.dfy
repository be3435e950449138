/** The polled vehicle payload: a snapshot translated into five sub-objects, each load-bearing
    field holding its last known value when the snapshot brings none. A missing JSON value is
    None. */
module Payload {
  import opened Clock
  import opened Vehicle
  import opened Units
  import opened DataUpdate

  datatype DriveState = DriveState(
    timestamp: Option<int>,
    power: Option<real>,
    shiftState: Option<string>,
    latitude: Option<real>,
    longitude: Option<real>,
    gpsAsOf: Option<int>,
    heading: Option<int>,
    speed: Option<real>)

  datatype ChargeState = ChargeState(
    timestamp: Option<int>,
    batteryLevel: Option<int>,
    usableBatteryLevel: Option<int>,
    chargeLimitSoc: Option<int>,
    batteryHeaterOn: Option<bool>,
    idealBatteryRange: Option<real>,
    estBatteryRange: Option<real>,
    batteryRange: Option<real>,
    chargingState: Option<string>,
    chargePortDoorOpen: Option<bool>,
    chargeEnergyAdded: Option<real>,
    timeToFullCharge: Option<real>,
    chargeRate: Option<real>,
    charger: Charger)

  // How the session charges: alternating or direct current, or no session at all.
  datatype Charger = Charger(
    power: Option<real>,
    actualCurrent: Option<int>,
    voltage: Option<int>,
    phases: Option<int>,
    fastPresent: Option<bool>,
    fastType: Option<string>,
    fastBrand: Option<string>)

  datatype ClimateState = ClimateState(
    timestamp: Option<int>,
    insideTemp: Option<real>,
    outsideTemp: Option<real>)

  datatype VehicleState = VehicleState(
    timestamp: Option<int>,
    vehicleName: Option<string>,
    sentryMode: Option<bool>,
    tpms: (Option<real>, Option<real>, Option<real>, Option<real>),
    odometer: Option<real>,
    locked: Option<bool>,
    carVersion: Option<string>)

  datatype VehicleConfig = VehicleConfig(
    timestamp: Option<int>,
    carType: Option<string>,
    trimBadging: Option<string>)

  datatype VehicleData = VehicleData(
    ids: Ids,
    state: string,
    driveState: Option<DriveState>,
    chargeState: Option<ChargeState>,
    climateState: Option<ClimateState>,
    vehicleState: Option<VehicleState>,
    vehicleConfig: Option<VehicleConfig>)

  datatype Ids = Ids(id: int, vehicleID: int, vin: string, displayName: string)

  datatype Cfg = Cfg(carType: string, model: string)

  // ---------- Enum strings ----------

  function TopState(p: Power): string {
    match p
    case PowerOnline => "online"
    case PowerSleep => "asleep"
    case _ => "offline"
  }

  function ChargingStateOf(c: ChargerState, plug: ChargePlug): string {
    if plug == PlugDisconnected then "Disconnected"
    else
      match c
      case ChargerCharging => "Charging"
      case ChargerIdle => "Stopped"
      case _ => "Disconnected"
  }

  // ---------- The sub-objects ----------

 // Milliseconds to seconds, toward zero.
  function MilliToSeconds(ms: int): int {
    if ms < 0 then -(-ms / 1000) else ms / 1000
  }

  function DriveOf(held: Option<DriveState>, vs: State, nowMs: int): DriveState {
    DriveState(
      Some(nowMs),
      vs.pollOwned.drivePowerKw,
      if vs.gear == GearUnknown && held.Some? && held.value.shiftState.Some? then held.value.shiftState
      else Some(ShiftState(vs.gear)),
      if vs.location.Some? then Some(vs.location.value.latitude)
      else if held.Some? then held.value.latitude else None,
      if vs.location.Some? then Some(vs.location.value.longitude)
      else if held.Some? then held.value.longitude else None,
      Some(MilliToSeconds(if vs.location.Some? then UnixMilli(vs.location.value.timeStamp) else nowMs)),
      Some(Truncated(vs.headingDeg)),
      Some(MpsToMph(vs.speedMps)))
  }

  const DC_THRESHOLD_KW := 25.0

  function LevelOf(held: Option<ChargeState>, vs: State): Option<int> {
    if vs.batteryLevelPct == 0.0 && held.Some? && held.value.batteryLevel.Some? then held.value.batteryLevel
    else Some(Truncated(vs.batteryLevelPct))
  }

  function LimitOf(held: Option<ChargeState>, vs: State): Option<int> {
    if vs.batteryLimitPct == 0.0 && held.Some? && held.value.chargeLimitSoc.Some? then held.value.chargeLimitSoc
    else Some(Truncated(vs.batteryLimitPct))
  }

  function RangeOf(held: Option<ChargeState>, vs: State): Option<real> {
    if vs.rangeKm == 0 && held.Some? && held.value.idealBatteryRange.Some? then held.value.idealBatteryRange
    else Some(KmToMiles(vs.rangeKm as real))
  }

  function EnergyOf(held: Option<ChargeState>, live: Option<LiveSession>): Option<real> {
    if live.Some? then Some(live.value.totalChargedEnergy)
    else if held.Some? && held.value.chargeEnergyAdded.Some? then held.value.chargeEnergyAdded
    else Some(0.0)
  }

  function HoursToFull(vs: State, live: Option<LiveSession>): real {
    if live.Some? && live.value.timeRemainingSec > 0 then live.value.timeRemainingSec as real / 3600.0
    else if vs.timeToFullMin > 0 then vs.timeToFullMin as real / 60.0
    else 0.0
  }

  predicate IsDc(live: Option<LiveSession>) {
    live.Some? && (live.value.fastCharger || live.value.powerKw >= DC_THRESHOLD_KW)
  }

  function ChargerOf(live: Option<LiveSession>): Charger {
    if live.None? then Charger(Some(0.0), Some(0), None, None, Some(false), None, None)
    else if IsDc(live) then
      Charger(Some(Round(live.value.powerKw) as real), None, None, None, Some(true), Some("Combo"), Some("Rivian"))
    else if live.value.powerKw > 0.0 then
      Charger(Some(Round(live.value.powerKw) as real), Some(Truncated(live.value.currentA)), Some(240), Some(2),
              Some(false), None, None)
    else
      Charger(Some(Round(live.value.powerKw) as real), Some(Truncated(live.value.currentA)), None, None,
              Some(false), None, None)
  }

  function ChargeOf(held: Option<ChargeState>, vs: State, live: Option<LiveSession>, nowMs: int): ChargeState {
    var level, range := LevelOf(held, vs), RangeOf(held, vs);
    ChargeState(Some(nowMs), level, level, LimitOf(held, vs), Some(vs.batteryHeaterOn), range, range, range,
                Some(ChargingStateOf(vs.charger, vs.plug)), Some(vs.pollOwned.chargePortOpen), EnergyOf(held, live),
                Some(HoursToFull(vs, live)), Some(0.0), ChargerOf(live))
  }

  function NonZero(x: real): Option<real> {
    if x != 0.0 then Some(x) else None
  }

  function ClimateOf(vs: State, nowMs: int): ClimateState {
    ClimateState(Some(nowMs), Some(vs.cabinTempC), NonZero(vs.outsideTempC))
  }

  predicate AllLocked(l: Locks) {
    l.frontLeft == "locked" && l.frontRight == "locked" && l.rearLeft == "locked" && l.rearRight == "locked"
  }

  function VehicleStateOf(held: Option<VehicleState>, vs: State, ids: Ids, armed: string -> bool, nowMs: int):
    VehicleState
  {
    VehicleState(
      Some(nowMs),
      Some(ids.displayName),
      Some(armed(vs.gearGuardStatus)),
      (NonZero(vs.tpmsFlBar), NonZero(vs.tpmsFrBar), NonZero(vs.tpmsRlBar), NonZero(vs.tpmsRrBar)),
      if vs.odometerMeters == 0 && held.Some? && held.value.odometer.Some? then held.value.odometer
      else Some(MetersToMiles(vs.odometerMeters as real)),
      Some(AllLocked(vs.locks)),
      if vs.pollOwned.otaVersion != "" then Some(vs.pollOwned.otaVersion)
      else if held.Some? && held.value.carVersion.Some? then held.value.carVersion
      else Some(""))
  }

  // The first non-empty of two, and so of any chain.
  function OrElse(a: string, b: string): string {
    if a != "" then a else b
  }

  // Lines the consumer cannot show, and the badge they are shown under instead.
  const MODEL_NAMES: map<string, string> := map[
    "cybertruck" := "Cybertruck", "roadster" := "Roadster", "semi" := "Semi", "cybercab" := "Cybercab"]

  function OrEmpty(s: Option<string>): string {
    if s.Some? then s.value else ""
  }

  function CarTypeOf(held: Option<VehicleConfig>, carType: string, cfg: Cfg): string {
    OrElse(carType, OrElse(if held.Some? then OrEmpty(held.value.carType) else "", OrElse(cfg.carType, "model3")))
  }

  function TrimOf(held: Option<VehicleConfig>, trim: string, cfg: Cfg): string {
    OrElse(trim, OrElse(if held.Some? then OrEmpty(held.value.trimBadging) else "", cfg.model))
  }

  function Shown(carType: string, trim: string): (string, string) {
    if carType in MODEL_NAMES then ("model3", MODEL_NAMES[carType]) else (carType, trim)
  }

  function ConfigOf(held: Option<VehicleConfig>, carType: string, trim: string, cfg: Cfg, nowMs: int):
    VehicleConfig
  {
    var (c, t) := Shown(CarTypeOf(held, carType, cfg), TrimOf(held, trim, cfg));
    VehicleConfig(Some(nowMs), Some(c), if t != "" then Some(t) else None)
  }

  // ---------- The payload ----------

  // What a vehicle is translated with. armed classifies the guard status string.
  datatype Setup = Setup(ids: Ids, cfg: Cfg, armed: string -> bool)

  function SnapTime(vs: State, asOf: Time, now: Time): Time {
    if !IsZero(asOf) then asOf
    else
      var fix := vs.location.Some? && !IsZero(vs.location.value.timeStamp);
      var t := if fix then vs.location.value.timeStamp else vs.pollOwned.lastUpdate;
      if IsZero(t) then now else t
  }

  // Nothing polled yet: what was last sent, asleep; or a minimal payload.
  function AsleepFallback(c: Setup, prev: Option<VehicleData>, now: Time): VehicleData {
    if prev.Some? then prev.value.(ids := c.ids, state := "asleep")
    else
      var nowMs := Some(UnixMilli(now));
      VehicleData(
        c.ids, "asleep",
        Some(DriveState(nowMs, None, None, None, None, Some(MilliToSeconds(UnixMilli(now))), None, None)),
        Some(ChargeState(nowMs, Some(0), None, None, None, Some(0.0), Some(0.0), Some(0.0), Some("Disconnected"), None,
                         Some(0.0), None, None, Charger(None, None, None, None, None, None, None))),
        Some(ClimateState(nowMs, None, None)),
        Some(VehicleState(nowMs, Some(c.ids.displayName), None, (None, None, None, None), Some(0.0), Some(true), None)),
        Some(ConfigOf(None, "", "", c.cfg, UnixMilli(now))))
  }

  function Translate(c: Setup, prev: Option<VehicleData>, snap: Snapshot, now: Time): VehicleData {
    if snap.state.None? then AsleepFallback(c, prev, now)
    else
      var vs := snap.state.value;
      var nowMs := UnixMilli(SnapTime(vs, AsOfTime(snap), now));
      VehicleData(
        c.ids, TopState(vs.power),
        Some(DriveOf(HeldDrive(prev), vs, nowMs)),
        Some(ChargeOf(HeldCharge(prev), vs, snap.live, nowMs)),
        Some(ClimateOf(vs, nowMs)),
        Some(VehicleStateOf(HeldVehicle(prev), vs, c.ids, c.armed, nowMs)),
        Some(ConfigOf(HeldConfig(prev), vs.pollOwned.carType, vs.pollOwned.trimBadging, c.cfg, nowMs)))
  }

  function HeldDrive(prev: Option<VehicleData>): Option<DriveState> {
    if prev.Some? then prev.value.driveState else None
  }

  function HeldCharge(prev: Option<VehicleData>): Option<ChargeState> {
    if prev.Some? then prev.value.chargeState else None
  }

  function HeldVehicle(prev: Option<VehicleData>): Option<VehicleState> {
    if prev.Some? then prev.value.vehicleState else None
  }

  function HeldConfig(prev: Option<VehicleData>): Option<VehicleConfig> {
    if prev.Some? then prev.value.vehicleConfig else None
  }

  // ---------- Never null ----------

  // Everything the consumer drops a payload for lacking.
  predicate Complete(v: VehicleData) {
    && v.driveState.Some? && v.driveState.value.timestamp.Some? && v.driveState.value.gpsAsOf.Some?
    && v.chargeState.Some? && CompleteCharge(v.chargeState.value)
    && v.climateState.Some? && v.climateState.value.timestamp.Some?
    && v.vehicleState.Some? && v.vehicleState.value.timestamp.Some? && v.vehicleState.value.odometer.Some?
    && v.vehicleConfig.Some? && v.vehicleConfig.value.timestamp.Some? && ShownType(v.vehicleConfig.value.carType)
  }

  predicate CompleteCharge(s: ChargeState) {
    && s.timestamp.Some? && s.batteryLevel.Some? && s.chargeEnergyAdded.Some?
    && s.idealBatteryRange.Some? && s.estBatteryRange == s.batteryRange == s.idealBatteryRange
    && s.chargingState.Some?
  }

  // A car type the consumer can show.
  predicate ShownType(carType: Option<string>) {
    carType.Some? && carType.value != "" && carType.value !in MODEL_NAMES
  }

  lemma ConfigIsShown(held: Option<VehicleConfig>, carType: string, trim: string, cfg: Cfg, nowMs: int)
    ensures ShownType(ConfigOf(held, carType, trim, cfg, nowMs).carType)
  {
    assert CarTypeOf(held, carType, cfg) != "";
  }

  lemma NeverNull(c: Setup, prev: Option<VehicleData>, snap: Snapshot, now: Time)
    requires prev.Some? ==> Complete(prev.value)
    ensures Complete(Translate(c, prev, snap, now))
    ensures snap.state.Some? ==> var v := Translate(c, prev, snap, now);
                                 v.driveState.value.shiftState.Some? && v.chargeState.value.chargeLimitSoc.Some?
                                 && v.vehicleState.value.carVersion.Some?
  {
    if snap.state.None? {
      ConfigIsShown(None, "", "", c.cfg, UnixMilli(now));
    } else {
      var vs := snap.state.value;
      ConfigIsShown(HeldConfig(prev), vs.pollOwned.carType, vs.pollOwned.trimBadging, c.cfg,
                    UnixMilli(SnapTime(vs, AsOfTime(snap), now)));
    }
  }

  // ---------- Translating again ----------

  // The one state a second translation shows differently: a trim without a car type, while
  // the type in force is a line shown under another name.
  predicate TrimReturns(held: Option<VehicleConfig>, carType: string, trim: string, cfg: Cfg) {
    var inForce := CarTypeOf(held, carType, cfg);
    carType == "" && inForce in MODEL_NAMES && trim != "" && trim != MODEL_NAMES[inForce]
  }

  lemma ConfigSettlesExactly(held: Option<VehicleConfig>, carType: string, trim: string, cfg: Cfg, nowMs: int)
    ensures var once := ConfigOf(held, carType, trim, cfg, nowMs);
            ConfigOf(Some(once), carType, trim, cfg, nowMs) == once <==> !TrimReturns(held, carType, trim, cfg)
  {
    ConfigIsShown(held, carType, trim, cfg, nowMs);
  }

  predicate Unsettled(c: Setup, prev: Option<VehicleData>, snap: Snapshot) {
    && snap.state.Some?
    && TrimReturns(HeldConfig(prev), snap.state.value.pollOwned.carType, snap.state.value.pollOwned.trimBadging, c.cfg)
  }

  // Translating the same snapshot on top of its own payload changes nothing, in all but
  // that one case.
  lemma SettlesExactly(c: Setup, prev: Option<VehicleData>, snap: Snapshot, now: Time)
    ensures var once := Translate(c, prev, snap, now);
            Translate(c, Some(once), snap, now) == once <==> !Unsettled(c, prev, snap)
  {
    if snap.state.Some? {
      var vs := snap.state.value;
      var nowMs := UnixMilli(SnapTime(vs, AsOfTime(snap), now));
      DriveSettles(HeldDrive(prev), vs, nowMs);
      ChargeSettles(HeldCharge(prev), vs, snap.live, nowMs);
      VehicleStateSettles(HeldVehicle(prev), vs, c.ids, c.armed, nowMs);
      ConfigSettlesExactly(HeldConfig(prev), vs.pollOwned.carType, vs.pollOwned.trimBadging, c.cfg, nowMs);
    }
  }

  lemma DriveSettles(held: Option<DriveState>, vs: State, nowMs: int)
    ensures DriveOf(Some(DriveOf(held, vs, nowMs)), vs, nowMs) == DriveOf(held, vs, nowMs)
  {
  }

  lemma ChargeSettles(held: Option<ChargeState>, vs: State, live: Option<LiveSession>, nowMs: int)
    ensures ChargeOf(Some(ChargeOf(held, vs, live, nowMs)), vs, live, nowMs) == ChargeOf(held, vs, live, nowMs)
  {
  }

  lemma VehicleStateSettles(held: Option<VehicleState>, vs: State, ids: Ids, armed: string -> bool, nowMs: int)
    ensures VehicleStateOf(Some(VehicleStateOf(held, vs, ids, armed, nowMs)), vs, ids, armed, nowMs)
         == VehicleStateOf(held, vs, ids, armed, nowMs)
  {
  }

  // ---------- Hold last known, over any sequence of reads ----------

  datatype Read = Read(snap: Snapshot, now: Time)

  function PayloadAfter(c: Setup, views: seq<Read>): Option<VehicleData> {
    if views == [] then None
    else
      var r := views[|views| - 1];
      Some(Translate(c, PayloadAfter(c, views[..|views| - 1]), r.snap, r.now))
  }

  // The last state read that passes.
  function LastState(views: seq<Read>, usable: State -> bool): (r: Option<State>)
    ensures r.Some? ==> usable(r.value)
  {
    if views == [] then None
    else
      var st := views[|views| - 1].snap.state;
      if st.Some? && usable(st.value) then st else LastState(views[..|views| - 1], usable)
  }

  // The last live session read beside a state.
  function LastLive(views: seq<Read>): Option<LiveSession> {
    if views == [] then None
    else
      var snap := views[|views| - 1].snap;
      if snap.state.Some? && snap.live.Some? then snap.live else LastLive(views[..|views| - 1])
  }

  predicate Any(st: State) { true }
  predicate HasLevel(st: State) { st.batteryLevelPct != 0.0 }
  predicate HasLimit(st: State) { st.batteryLimitPct != 0.0 }
  predicate HasRange(st: State) { st.rangeKm != 0 }
  predicate HasOdometer(st: State) { st.odometerMeters != 0 }
  predicate HasGear(st: State) { st.gear != GearUnknown }
  predicate HasFix(st: State) { st.location.Some? }
  predicate HasVersion(st: State) { st.pollOwned.otaVersion != "" }

  // A field that may be missing until the first state: then its value for no reading.
  function OrMissing<T>(views: seq<Read>, unread: T): Option<T> {
    if LastState(views, Any).Some? then Some(unread) else None
  }

  predicate ChargeHeld(views: seq<Read>, s: ChargeState) {
    var level, limit, range := LastState(views, HasLevel), LastState(views, HasLimit), LastState(views, HasRange);
    && s.batteryLevel == Some(if level.Some? then Truncated(level.value.batteryLevelPct) else 0)
    && s.chargeLimitSoc
       == (if limit.Some? then Some(Truncated(limit.value.batteryLimitPct)) else OrMissing(views, 0))
    && s.idealBatteryRange == s.estBatteryRange == s.batteryRange
       == Some(if range.Some? then KmToMiles(range.value.rangeKm as real) else 0.0)
    && s.chargeEnergyAdded == Some(if LastLive(views).Some? then LastLive(views).value.totalChargedEnergy else 0.0)
  }

  predicate DriveHeld(views: seq<Read>, s: DriveState) {
    var gear, fix := LastState(views, HasGear), LastState(views, HasFix);
    && s.shiftState == (if gear.Some? then Some(ShiftState(gear.value.gear)) else OrMissing(views, "P"))
    && s.latitude == (if fix.Some? then Some(fix.value.location.value.latitude) else None)
    && s.longitude == (if fix.Some? then Some(fix.value.location.value.longitude) else None)
  }

  predicate VehicleHeld(views: seq<Read>, s: VehicleState) {
    var odo, version := LastState(views, HasOdometer), LastState(views, HasVersion);
    && s.odometer == Some(if odo.Some? then MetersToMiles(odo.value.odometerMeters as real) else 0.0)
    && s.carVersion == (if version.Some? then Some(version.value.pollOwned.otaVersion) else OrMissing(views, ""))
  }

  // The payload after any reads carries, field by field, the last usable reading, and no
  // field the consumer needs is ever null.
  lemma {:induction false} HoldsLastKnown(c: Setup, views: seq<Read>)
    requires views != []
    ensures var v := PayloadAfter(c, views).value;
            && Complete(v)
            && ChargeHeld(views, v.chargeState.value)
            && DriveHeld(views, v.driveState.value)
            && VehicleHeld(views, v.vehicleState.value)
  {
    var front, r := views[..|views| - 1], views[|views| - 1];
    if front != [] {
      HoldsLastKnown(c, front);
    }
    var prev := PayloadAfter(c, front);
    NeverNull(c, prev, r.snap, r.now);
    if r.snap.state.Some? {
      var vs := r.snap.state.value;
      var nowMs := UnixMilli(SnapTime(vs, AsOfTime(r.snap), r.now));
      ChargeStep(views, HeldCharge(prev), nowMs);
      DriveStep(views, HeldDrive(prev), nowMs);
      VehicleStep(views, HeldVehicle(prev), c, nowMs);
    } else {
      NothingRead(views, AsleepFallback(c, prev, r.now));
    }
  }

  // A read without a state is no reading of anything.
  lemma NothingRead(views: seq<Read>, v: VehicleData)
    requires views != [] && views[|views| - 1].snap.state.None? && Complete(v)
    requires var front := views[..|views| - 1];
             && ChargeHeld(front, v.chargeState.value) && DriveHeld(front, v.driveState.value)
             && VehicleHeld(front, v.vehicleState.value)
    ensures ChargeHeld(views, v.chargeState.value) && DriveHeld(views, v.driveState.value)
    ensures VehicleHeld(views, v.vehicleState.value)
  {
    var front := views[..|views| - 1];
    assert LastState(views, Any) == LastState(front, Any);
  }

  lemma ChargeStep(views: seq<Read>, held: Option<ChargeState>, nowMs: int)
    requires views != [] && views[|views| - 1].snap.state.Some?
    requires held.None? <==> |views| == 1
    requires held.Some? ==> ChargeHeld(views[..|views| - 1], held.value)
    ensures var snap := views[|views| - 1].snap; ChargeHeld(views, ChargeOf(held, snap.state.value, snap.live, nowMs))
  {
  }

  lemma DriveStep(views: seq<Read>, held: Option<DriveState>, nowMs: int)
    requires views != [] && views[|views| - 1].snap.state.Some?
    requires held.None? <==> |views| == 1
    requires held.Some? ==> DriveHeld(views[..|views| - 1], held.value)
    ensures DriveHeld(views, DriveOf(held, views[|views| - 1].snap.state.value, nowMs))
  {
  }

  lemma VehicleStep(views: seq<Read>, held: Option<VehicleState>, c: Setup, nowMs: int)
    requires views != [] && views[|views| - 1].snap.state.Some?
    requires held.None? <==> |views| == 1
    requires held.Some? ==> VehicleHeld(views[..|views| - 1], held.value)
    ensures VehicleHeld(views, VehicleStateOf(held, views[|views| - 1].snap.state.value, c.ids, c.armed, nowMs))
  {
  }

  // ---------- One snapshot, field by field ----------

  // The top-level state and the charging state, by name.
  lemma NamesInWords(c: Setup, prev: Option<VehicleData>, snap: Snapshot, now: Time)
    requires snap.state.Some?
    ensures var (v, vs) := (Translate(c, prev, snap, now), snap.state.value);
            && (v.state == "online" <==> vs.power == PowerOnline)
            && (v.state == "asleep" <==> vs.power == PowerSleep)
            && (v.state == "offline" <==> vs.power == PowerOffline || vs.power == PowerUnknown)
            && v.chargeState.Some?
            && (v.chargeState.value.chargingState == Some("Charging")
                <==> vs.plug != PlugDisconnected && vs.charger == ChargerCharging)
            && (v.chargeState.value.chargingState == Some("Stopped")
                <==> vs.plug != PlugDisconnected && vs.charger == ChargerIdle)
            && (v.chargeState.value.chargingState == Some("Disconnected")
                <==> vs.plug == PlugDisconnected || vs.charger == ChargerDisconnect || vs.charger == ChargerUnknown)
            && v.ids == c.ids
  {
    assert "online"[0] == 'o' && "online"[1] == 'n' && "asleep"[0] == 'a' && "offline"[1] == 'f';
    assert "Charging"[0] == 'C' && "Stopped"[0] == 'S' && "Disconnected"[0] == 'D';
  }

  // With no state at all the car is asleep, under its own identity.
  lemma NothingPolledIsAsleep(c: Setup, prev: Option<VehicleData>, snap: Snapshot, now: Time)
    requires snap.state.None?
    ensures var v := Translate(c, prev, snap, now); v.state == "asleep" && v.ids == c.ids
  {
  }

  predicate MilliOf(ms: Option<int>, t: Time) {
    ms.Some? && 0 <= t - ms.value * 1_000_000 < 1_000_000
  }

  predicate SecondOf(s: Option<int>, t: Time) {
    s.Some? && 0 <= t - s.value * 1_000_000_000 < 1_000_000_000
  }

  // Every sub-object carries the served time, and the position its own fix's.
  lemma TimesInNumbers(c: Setup, prev: Option<VehicleData>, snap: Snapshot, now: Time)
    requires snap.state.Some? && 0 <= AsOfTime(snap)
    requires snap.state.value.location.Some? ==> 0 <= snap.state.value.location.value.timeStamp
    ensures var v := Translate(c, prev, snap, now);
            && v.driveState.Some? && MilliOf(v.driveState.value.timestamp, AsOfTime(snap))
            && v.chargeState.Some? && MilliOf(v.chargeState.value.timestamp, AsOfTime(snap))
            && v.climateState.Some? && MilliOf(v.climateState.value.timestamp, AsOfTime(snap))
            && v.vehicleState.Some? && MilliOf(v.vehicleState.value.timestamp, AsOfTime(snap))
            && v.vehicleConfig.Some? && MilliOf(v.vehicleConfig.value.timestamp, AsOfTime(snap))
            && SecondOf(v.driveState.value.gpsAsOf,
                        if snap.state.value.location.Some? then snap.state.value.location.value.timeStamp
                        else AsOfTime(snap))
  {
  }

  // A snapshot served under no time uses its fix's, else its last update's, else the clock.
  lemma UntimedSnapshot(c: Setup, prev: Option<VehicleData>, snap: Snapshot, now: Time)
    requires snap.state.Some? && AsOfTime(snap) == -62_135_596_800_000_000_000
    ensures var (v, vs) := (Translate(c, prev, snap, now), snap.state.value);
            && v.driveState.Some?
            && MilliOf(v.driveState.value.timestamp,
                       if vs.location.Some? && vs.location.value.timeStamp != ZERO then vs.location.value.timeStamp
                       else if vs.pollOwned.lastUpdate != ZERO then vs.pollOwned.lastUpdate else now)
  {
  }

  // Speed in miles per hour, heading in whole degrees, temperatures and pressures as read, a
  // zero reading missing where the source leaves it out.
  lemma ReadingsInNumbers(c: Setup, prev: Option<VehicleData>, snap: Snapshot, now: Time)
    requires snap.state.Some?
    ensures var (v, vs) := (Translate(c, prev, snap, now), snap.state.value);
            && v.driveState.Some? && v.climateState.Some? && v.vehicleState.Some?
            && var (d, t, s) := (v.driveState.value, v.climateState.value, v.vehicleState.value);
               && d.speed.Some? && d.speed.value * 0.44704 == vs.speedMps
               && d.heading.Some? && -1.0 < vs.headingDeg - d.heading.value as real < 1.0
               && d.power == vs.pollOwned.drivePowerKw
               && t.insideTemp == Some(vs.cabinTempC)
               && (t.outsideTemp == if vs.outsideTempC == 0.0 then None else Some(vs.outsideTempC))
               && (s.tpms.0 == if vs.tpmsFlBar == 0.0 then None else Some(vs.tpmsFlBar))
               && (s.tpms.1 == if vs.tpmsFrBar == 0.0 then None else Some(vs.tpmsFrBar))
               && (s.tpms.2 == if vs.tpmsRlBar == 0.0 then None else Some(vs.tpmsRlBar))
               && (s.tpms.3 == if vs.tpmsRrBar == 0.0 then None else Some(vs.tpmsRrBar))
               && s.vehicleName == Some(c.ids.displayName) && s.sentryMode == Some(c.armed(vs.gearGuardStatus))
               && (s.locked == Some(true) <==> vs.locks == Locks("locked", "locked", "locked", "locked"))
  {
  }

  // Direct current shows no phases, voltage or current, alternating current two phases at 240 V,
  // and a session without power neither.
  lemma ChargerInWords(c: Setup, prev: Option<VehicleData>, snap: Snapshot, now: Time)
    requires snap.state.Some?
    ensures var v := Translate(c, prev, snap, now);
            && v.chargeState.Some?
            && var (s, g) := (v.chargeState.value, v.chargeState.value.charger);
               var dc := snap.live.Some? && (snap.live.value.fastCharger || snap.live.value.powerKw >= 25.0);
               var ac := snap.live.Some? && !dc && snap.live.value.powerKw > 0.0;
               && g.fastPresent == Some(dc) && (g.fastType == if dc then Some("Combo") else None)
               && (g.phases == if ac then Some(2) else None) && (g.voltage == if ac then Some(240) else None)
               && (snap.live.None? ==> g.power == Some(0.0) && g.actualCurrent == Some(0))
               && (snap.live.Some? ==> g.power.Some? && -0.5 <= g.power.value - snap.live.value.powerKw <= 0.5)
               && (dc ==> g.actualCurrent.None?)
               && (snap.live.Some? && !dc ==>
                     g.actualCurrent.Some? && -1.0 < snap.live.value.currentA - g.actualCurrent.value as real < 1.0)
               && s.batteryHeaterOn == Some(snap.state.value.batteryHeaterOn)
               && s.chargePortDoorOpen == Some(snap.state.value.pollOwned.chargePortOpen)
  {
  }

  // Hours to full from the session's seconds, else from the state's minutes, else none.
  lemma HoursInNumbers(c: Setup, prev: Option<VehicleData>, snap: Snapshot, now: Time)
    requires snap.state.Some?
    ensures var (v, vs) := (Translate(c, prev, snap, now), snap.state.value);
            && v.chargeState.Some? && v.chargeState.value.timeToFullCharge.Some?
            && var hours := v.chargeState.value.timeToFullCharge.value;
               if snap.live.Some? && snap.live.value.timeRemainingSec > 0
               then hours * 3600.0 == snap.live.value.timeRemainingSec as real
               else if vs.timeToFullMin > 0 then hours * 60.0 == vs.timeToFullMin as real
               else hours == 0.0
  {
  }

  // The car type and badge shown: the state's own, else what was shown last, else the
  // configured; a line the consumer cannot show goes under model3 with its name as the badge.
  lemma ConfigInWords(held: Option<VehicleConfig>, carType: string, trim: string, cfg: Cfg, nowMs: int)
    ensures var v := ConfigOf(held, carType, trim, cfg, nowMs);
            var before := if held.Some? then OrEmpty(held.value.carType) else "";
            var badge := if held.Some? then OrEmpty(held.value.trimBadging) else "";
            var t := if carType != "" then carType else if before != "" then before
                     else if cfg.carType != "" then cfg.carType else "model3";
            var own := if trim != "" then trim else if badge != "" then badge else cfg.model;
            if t == "cybertruck" then v.carType == Some("model3") && v.trimBadging == Some("Cybertruck")
            else if t == "roadster" then v.carType == Some("model3") && v.trimBadging == Some("Roadster")
            else if t == "semi" then v.carType == Some("model3") && v.trimBadging == Some("Semi")
            else if t == "cybercab" then v.carType == Some("model3") && v.trimBadging == Some("Cybercab")
            else v.carType == Some(t) && (v.trimBadging == if own == "" then None else Some(own))
  {
  }

  // Before anything was polled or sent: zeros where a number must be, locked, unplugged, and
  // the configured car.
  lemma FirstFallbackInWords(c: Setup, snap: Snapshot, now: Time)
    requires snap.state.None? && 0 <= now
    ensures var v := Translate(c, None, snap, now);
            && Complete(v)
            && MilliOf(v.driveState.value.timestamp, now) && SecondOf(v.driveState.value.gpsAsOf, now)
            && MilliOf(v.chargeState.value.timestamp, now) && MilliOf(v.climateState.value.timestamp, now)
            && MilliOf(v.vehicleState.value.timestamp, now) && MilliOf(v.vehicleConfig.value.timestamp, now)
            && v.chargeState.value.batteryLevel == Some(0) && v.chargeState.value.batteryRange == Some(0.0)
            && v.chargeState.value.chargeEnergyAdded == Some(0.0)
            && v.chargeState.value.chargingState == Some("Disconnected")
            && v.vehicleState.value.odometer == Some(0.0) && v.vehicleState.value.locked == Some(true)
            && v.vehicleState.value.vehicleName == Some(c.ids.displayName)
            && v.driveState.value.shiftState.None? && v.driveState.value.latitude.None?
  {
    NeverNull(c, None, snap, now);
  }
}
