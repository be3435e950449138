/** The data:update line: a snapshot encoded into a timestamp and twelve columns, and a line
    decoded back into a sparse snapshot. Numerals are formatted and parsed by a supplied pair
    of functions. */
module DataUpdate {
  import opened Clock
  import opened Vehicle
  import opened MergeModel
  import opened Text
  import opened Units

  const MILLISECOND: Duration := 1_000_000
  const NUM_COLUMNS := 12

  // The decimal formatting and parsing of the host library.
  datatype Numerals = Numerals(
    itoa: int -> string,
    ftoa: real -> string,
    parseFloat: string -> Option<real>,
    parseInt: string -> Option<int>)

  datatype Frame = Frame(msgType: string, tag: string, value: string)

  function ShiftState(g: Gear): string {
    match g
    case GearDrive => "D"
    case GearReverse => "R"
    case GearNeutral => "N"
    case _ => "P"
  }

  function GearFromTesla(shift: string): Gear {
    if shift == "D" then GearDrive
    else if shift == "R" then GearReverse
    else if shift == "N" then GearNeutral
    else if shift == "P" then GearPark
    else GearUnknown
  }

  // ---------- Encoding ----------

  // A rounded numeral, blank for a zero reading.
  function Rounded(n: Numerals, x: real): string {
    if x != 0.0 then n.itoa(Round(x)) else ""
  }

  function PowerColumn(n: Numerals, st: State, live: Option<LiveSession>): string {
    if live.Some? && live.value.powerKw != 0.0 then n.itoa(Round(live.value.powerKw))
    else if st.power == PowerOnline && st.location.Some? then "0"
    else ""
  }

  function Columns(n: Numerals, st: State, live: Option<LiveSession>): seq<string> {
    var lat := if st.location.Some? then n.ftoa(st.location.value.latitude) else "";
    var lng := if st.location.Some? then n.ftoa(st.location.value.longitude) else "";
    [if st.speedMps != 0.0 then n.itoa(Round(MpsToMph(st.speedMps))) else "",
     if st.odometerMeters != 0 then n.ftoa(MetersToMiles(st.odometerMeters as real)) else "",
     Rounded(n, st.batteryLevelPct),
     "",
     Rounded(n, st.headingDeg),
     lat,
     lng,
     PowerColumn(n, st, live),
     if st.gear != GearUnknown && st.location.Some? then ShiftState(st.gear) else "",
     if st.rangeKm != 0 then n.itoa(Round(KmToMiles(st.rangeKm as real))) else "",
     "",
     Rounded(n, st.headingDeg)]
  }

  // The columns a snapshot is pushed as: none while there is no state.
  function ColumnsOf(n: Numerals, s: Snapshot): Option<seq<string>> {
    if s.state.None? then None else Some(Columns(n, s.state.value, s.live))
  }

  // The two columns the model has nothing for stay blank, and the heading is sent twice.
  lemma FixedColumns(n: Numerals, st: State, live: Option<LiveSession>)
    ensures var cols := Columns(n, st, live);
            |cols| == 12 && cols[3] == "" && cols[10] == "" && cols[4] == cols[11]
  {
  }

  method DataColumnsFor(n: Numerals, s: Snapshot) returns (ts: string, cols: Option<seq<string>>)
    ensures cols == ColumnsOf(n, s)
    ensures ts == if s.state.None? then "" else n.itoa(UnixMilli(AsOfTime(s)))
  {
    if s.state.None? {
      return "", None;
    }
    ts := n.itoa(UnixMilli(AsOfTime(s)));
    var cells := FillColumns(n, s.state.value, s.live);
    cols := Some(cells[..]);
  }

  // Cell by cell into a fixed-size row, blank where the snapshot has no reading.
  method FillColumns(n: Numerals, st: State, live: Option<LiveSession>) returns (cells: array<string>)
    ensures fresh(cells) && cells[..] == Columns(n, st, live)
  {
    cells := new string[NUM_COLUMNS](_ => "");
    FillMotion(n, st, cells);
    FillPlace(n, st, live, cells);
    if st.rangeKm != 0 {
      cells[9] := n.itoa(Round(KmToMiles(st.rangeKm as real)));
    }
  }

  // Speed, odometer, charge level and both heading cells.
  method FillMotion(n: Numerals, st: State, cells: array<string>)
    requires cells.Length == NUM_COLUMNS && forall i :: 0 <= i < NUM_COLUMNS ==> cells[i] == ""
    modifies cells
    ensures forall i :: 0 <= i < NUM_COLUMNS ==>
              cells[i] == if i < 5 || i == 11 then Columns(n, st, None)[i] else ""
  {
    if st.speedMps != 0.0 {
      cells[0] := n.itoa(Round(MpsToMph(st.speedMps)));
    }
    if st.odometerMeters != 0 {
      cells[1] := n.ftoa(MetersToMiles(st.odometerMeters as real));
    }
    if st.batteryLevelPct != 0.0 {
      cells[2] := n.itoa(Round(st.batteryLevelPct));
    }
    if st.headingDeg != 0.0 {
      var h := n.itoa(Round(st.headingDeg));
      cells[4] := h;
      cells[11] := h;
    }
  }

  // Position, power and selector: the last two only where a frame without a position is safe.
  method FillPlace(n: Numerals, st: State, live: Option<LiveSession>, cells: array<string>)
    requires cells.Length == NUM_COLUMNS && cells[5] == cells[6] == cells[7] == cells[8] == ""
    modifies cells
    ensures forall i :: 0 <= i < NUM_COLUMNS ==>
              cells[i] == if 5 <= i <= 8 then Columns(n, st, live)[i] else old(cells[i])
  {
    var hasLoc := st.location.Some?;
    if hasLoc {
      cells[5] := n.ftoa(st.location.value.latitude);
      cells[6] := n.ftoa(st.location.value.longitude);
    }
    if live.Some? && live.value.powerKw != 0.0 {
      cells[7] := n.itoa(Round(live.value.powerKw));
    } else if st.power == PowerOnline && hasLoc {
      cells[7] := "0";
    }
    if st.gear != GearUnknown && hasLoc {
      cells[8] := ShiftState(st.gear);
    }
  }

  function UnixMilli(t: Time): int {
    t / MILLISECOND
  }

  function EncodeFrame(tag: string, ts: string, cols: seq<string>): Frame {
    Frame("data:update", tag, Join([ts] + cols))
  }

  // Whatever moves a column counts as a change to the subscribers.
  lemma ColumnMovesAreChanges(n: Numerals, a: Snapshot, b: Snapshot)
    requires ColumnsOf(n, a) != ColumnsOf(n, b)
    ensures StreamChanged(a, b)
  {
  }

  // ---------- Decoding ----------

  function Cell(parts: seq<string>, i: nat): string {
    if i < |parts| then Trim(parts[i]) else ""
  }

  // A cell's number, when it has one.
  function Number(n: Numerals, cell: string): Option<real> {
    if cell == "" then None else n.parseFloat(cell)
  }

  function FrameTime(n: Numerals, parts: seq<string>, now: Time): Time {
    var ms := n.parseInt(Cell(parts, 0));
    if ms.Some? && ms.value > 0 then ms.value * MILLISECOND else now
  }

  // The heading column, or the estimated heading when that cell is blank.
  function HeadingCell(parts: seq<string>): string {
    if Cell(parts, 12) != "" then Cell(parts, 12) else Cell(parts, 5)
  }

  function LocationIn(n: Numerals, parts: seq<string>): Option<(real, real)> {
    var lat, lng := Number(n, Cell(parts, 6)), Number(n, Cell(parts, 7));
    if lat.Some? && lng.Some? then Some((lat.value, lng.value)) else None
  }

  // What a line's cells say, each on its own.
  datatype Readings = Readings(
    ts: Time,
    speedMph: Option<real>,
    odometerMi: Option<real>,
    soc: Option<real>,
    heading: Option<real>,
    place: Option<(real, real)>,
    powerKw: Option<real>,
    gear: Gear,
    rangeMi: Option<real>)

  function ReadingsOf(n: Numerals, parts: seq<string>, now: Time): Readings {
    Readings(
      FrameTime(n, parts, now),
      Number(n, Cell(parts, 1)), Number(n, Cell(parts, 2)), Number(n, Cell(parts, 3)), Number(n, HeadingCell(parts)),
      LocationIn(n, parts), Number(n, Cell(parts, 8)), GearFromTesla(Cell(parts, 9)), Number(n, Cell(parts, 10)))
  }

  function With(present: Fields, f: StreamField, carried: bool): Fields {
    if carried then present + {f} else present
  }

  // Only a positive power reading has a place in the model: it is charge power.
  function SessionIn(powerKw: Option<real>): Option<LiveSession> {
    if powerKw.Some? && powerKw.value > 0.0 then Some(LiveSession(powerKw.value, 0.0, 0.0, 0, false)) else None
  }

  // Speed, odometer, charge level and heading, on a zero state.
  function MotionState(r: Readings): State {
    ZERO_STATE.(
      speedMps := if r.speedMph.Some? then MphToMps(r.speedMph.value) else 0.0,
      odometerMeters := if r.odometerMi.Some? then Round(MilesToMeters(r.odometerMi.value)) else 0,
      batteryLevelPct := if r.soc.Some? then r.soc.value else 0.0,
      headingDeg := if r.heading.Some? then r.heading.value else 0.0)
  }

  function MotionFields(r: Readings): Fields {
    With(With(With(With({}, StreamSpeed, r.speedMph.Some?), StreamOdometer, r.odometerMi.Some?),
              StreamSOC, r.soc.Some?), StreamHeading, r.heading.Some?)
  }

  function Assembled(r: Readings, now: Time): Snapshot {
    var st := MotionState(r).(
      location := if r.place.Some? then Some(Location(r.place.value.0, r.place.value.1, r.ts)) else None,
      gear := r.gear,
      rangeKm := if r.rangeMi.Some? then Round(MilesToKm(r.rangeMi.value)) else 0);
    var present := With(With(With(With(MotionFields(r), StreamLoc, r.place.Some?),
                                  StreamChargePower, SessionIn(r.powerKw).Some?),
                             StreamGear, r.gear != GearUnknown), StreamRange, r.rangeMi.Some?);
    Snapshot(Some(st), SessionIn(r.powerKw), now, r.ts, present, ZERO)
  }

  method AssembleMotion(r: Readings) returns (st: State, present: Fields)
    ensures st == MotionState(r) && present == MotionFields(r)
  {
    st, present := ZERO_STATE, {};
    if r.speedMph.Some? {
      st, present := st.(speedMps := MphToMps(r.speedMph.value)), present + {StreamSpeed};
    }
    if r.odometerMi.Some? {
      st, present := st.(odometerMeters := Round(MilesToMeters(r.odometerMi.value))), present + {StreamOdometer};
    }
    if r.soc.Some? {
      st, present := st.(batteryLevelPct := r.soc.value), present + {StreamSOC};
    }
    if r.heading.Some? {
      st, present := st.(headingDeg := r.heading.value), present + {StreamHeading};
    }
  }

  // Reading by reading into a zero state and a presence mask.
  method Assemble(r: Readings, now: Time) returns (snap: Snapshot)
    ensures snap == Assembled(r, now)
  {
    var st, present := AssembleMotion(r);
    var live: Option<LiveSession> := None;
    if r.place.Some? {
      st := st.(location := Some(Location(r.place.value.0, r.place.value.1, r.ts)));
      present := present + {StreamLoc};
    }
    if r.powerKw.Some? && r.powerKw.value > 0.0 {
      live := Some(LiveSession(r.powerKw.value, 0.0, 0.0, 0, false));
      present := present + {StreamChargePower};
    }
    st := st.(gear := r.gear);
    if st.gear != GearUnknown {
      present := present + {StreamGear};
    }
    if r.rangeMi.Some? {
      st, present := st.(rangeKm := Round(MilesToKm(r.rangeMi.value))), present + {StreamRange};
    }
    snap := Snapshot(Some(st), live, now, r.ts, present, ZERO);
  }

  function Decoded(n: Numerals, parts: seq<string>, now: Time): Snapshot {
    Assembled(ReadingsOf(n, parts, now), now)
  }

  // Frames of any other type carry no snapshot.
  function DecodeFrame(n: Numerals, f: Frame, now: Time): Option<(string, Snapshot)> {
    if f.msgType != "data:update" then None else Some((f.tag, Decoded(n, Split(f.value), now)))
  }

  // A line that is only a timestamp carries nothing; a prefix that is no positive whole number is
  // replaced by the time of receipt.
  lemma BareLineIsEmpty(n: Numerals, prefix: string, now: Time)
    ensures var got := Decoded(n, [prefix], now);
            var ms := n.parseInt(Trim(prefix));
            && got.streamPresent == {} && got.live.None? && got.fetchedAt == now
            && got.streamFields == if ms.Some? && ms.value > 0 then ms.value * 1_000_000 else now
  {
  }

  // The heading column counts; the estimated heading only where that is blank.
  lemma HeadingIsPreferred(n: Numerals, parts: seq<string>, now: Time)
    requires |parts| == 13
    ensures var got := Decoded(n, parts, now);
            var cell := if Trim(parts[12]) != "" then Trim(parts[12]) else Trim(parts[5]);
            && (StreamHeading in got.streamPresent <==> cell != "" && n.parseFloat(cell).Some?)
            && (StreamHeading in got.streamPresent ==> got.state.value.headingDeg == n.parseFloat(cell).value)
  {
  }

  // A position needs both of its cells; a selector must be one of the four letters.
  lemma PlaceAndShiftInWords(n: Numerals, parts: seq<string>, now: Time)
    requires |parts| == 13
    ensures var got := Decoded(n, parts, now);
            var (lat, lng, shift) := (Trim(parts[6]), Trim(parts[7]), Trim(parts[9]));
            && (StreamLoc in got.streamPresent
                <==> lat != "" && lng != "" && n.parseFloat(lat).Some? && n.parseFloat(lng).Some?)
            && (StreamGear in got.streamPresent <==> shift in ["D", "R", "N", "P"])
            && got.state.value.gear
               == if shift == "D" then GearDrive else if shift == "R" then GearReverse
                  else if shift == "N" then GearNeutral else if shift == "P" then GearPark else GearUnknown
  {
  }

  // A frame of any other type is no update.
  lemma OtherFramesAreNone(n: Numerals, f: Frame, now: Time)
    ensures DecodeFrame(n, f, now).None? <==> f.msgType != "data:update"
  {
  }
}
