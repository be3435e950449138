/** The payload reader: one cached translation per vehicle, keyed on the served time, against
    a reader that translates every time; and the degraded state of a snapshot gone stale. */
module PayloadReader {
  import opened Clock
  import opened Vehicle
  import opened DataUpdate
  import opened Payload

  // ---------- Staleness ----------

  // A limit of zero turns the guard off; a snapshot without a time is never stale.
  predicate IsStale(limit: Duration, asOf: Time, now: Time) {
    limit > 0 && !IsZero(asOf) && Sub(now, asOf) > limit
  }

  // Stale means more than the limit since the served time; no age is over the longest duration.
  lemma StaleInNumbers(limit: Duration, asOf: Time, now: Time)
    ensures IsStale(limit, asOf, now)
       <==> 0 < limit < 9_223_372_036_854_775_807 && asOf != -62_135_596_800_000_000_000 && now - asOf > limit
  {
  }

  function LostState(driving: bool): string {
    if driving then "offline" else "asleep"
  }

  predicate MovingShift(shift: Option<string>) {
    shift == Some("D") || shift == Some("N") || shift == Some("R")
  }

  function ShiftOf(held: Option<DriveState>): Option<string> {
    if held.Some? then held.value.shiftState else None
  }

  function StaleLiveness(v: VehicleData): string {
    LostState(MovingShift(ShiftOf(v.driveState)))
  }

  function DegradeIfStale(limit: Duration, v: VehicleData, asOf: Time, now: Time): VehicleData {
    if IsStale(limit, asOf, now) then v.(state := StaleLiveness(v)) else v
  }

  function StateName(snap: Snapshot): string {
    if snap.state.None? then "asleep" else TopState(snap.state.value.power)
  }

  // The state the cheap endpoints serve, without translating.
  function SummaryState(limit: Duration, snap: Snapshot, now: Time): string {
    if IsStale(limit, AsOfTime(snap), now) then LostState(InDrive(GearOf(snap))) else StateName(snap)
  }

  // ---------- The cached reader ----------

  datatype Reader = Reader(prev: Option<VehicleData>, cached: Option<VehicleData>, cachedAsOf: Time, hits: nat)

  const NEW_READER := Reader(None, None, ZERO, 0)

  predicate Hit(r: Reader, snap: Snapshot) {
    r.cached.Some? && !IsZero(AsOfTime(snap)) && AsOfTime(snap) == r.cachedAsOf
  }

  // The payload before staleness, and the reader after it, given what translating would give.
  function Answer(r: Reader, snap: Snapshot, out: VehicleData): (Reader, VehicleData) {
    if Hit(r, snap) then (r.(hits := r.hits + 1), r.cached.value)
    else if IsZero(AsOfTime(snap)) then (r.(prev := Some(out)), out)
    else (r.(prev := Some(out), cached := Some(out), cachedAsOf := AsOfTime(snap)), out)
  }

  function Serve(c: Setup, r: Reader, v: Read): (Reader, VehicleData) {
    Answer(r, v.snap, Translate(c, r.prev, v.snap, v.now))
  }

  class Entry {
    const c: Setup
    const limit: Duration
    var prev: Option<VehicleData>
    var cached: Option<VehicleData>
    var cachedAsOf: Time
    var unchangedReads: nat

    ghost function Value(): Reader
      reads this
    {
      Reader(prev, cached, cachedAsOf, unchangedReads)
    }

    constructor (c: Setup, limit: Duration)
      ensures Value() == NEW_READER && this.c == c && this.limit == limit
    {
      this.c, this.limit := c, limit;
      prev, cached, cachedAsOf, unchangedReads := None, None, ZERO, 0;
    }

    // now is the clock of the translation, wall that of the staleness check after it.
    method TranslateLatest(snap: Snapshot, now: Time, wall: Time) returns (out: VehicleData)
      modifies this
      ensures var (after, served) := Serve(c, old(Value()), Read(snap, now));
              Value() == after && out == DegradeIfStale(limit, served, AsOfTime(snap), wall)
    {
      var asOf := AsOfTime(snap);
      if cached.Some? && !IsZero(asOf) && asOf == cachedAsOf {
        unchangedReads := unchangedReads + 1;
        out := DegradeIfStale(limit, cached.value, asOf, wall);
        return;
      }
      var body := Translate(c, prev, snap, now);
      prev := Some(body);
      if !IsZero(asOf) {
        cached := Some(body);
        cachedAsOf := asOf;
      }
      out := DegradeIfStale(limit, body, asOf, wall);
    }
  }

  // ---------- Against translating every time ----------

  function ReaderAfter(c: Setup, views: seq<Read>): Reader {
    if views == [] then NEW_READER
    else Serve(c, ReaderAfter(c, views[..|views| - 1]), views[|views| - 1]).0
  }

  predicate SameContent(a: Snapshot, b: Snapshot) {
    a.state == b.state && a.live == b.live
  }

  // Served times never move back, and one time is never served with two contents.
  predicate OneContentPerTime(views: seq<Read>) {
    && (forall i :: 0 <= i < |views| ==> ZERO <= AsOfTime(views[i].snap))
    && (forall i, j :: 0 <= i < j < |views| ==> AsOfTime(views[i].snap) <= AsOfTime(views[j].snap))
    && forall i, j :: 0 <= i < j < |views| && AsOfTime(views[i].snap) == AsOfTime(views[j].snap)
                  ==> SameContent(views[i].snap, views[j].snap)
  }

  // No state read brings a trim without a car type while the configured type is one shown
  // under another name.
  predicate TrimsSettle(c: Setup, views: seq<Read>) {
    forall i :: 0 <= i < |views| ==> Settled(c, views[i].snap)
  }

  predicate Settled(c: Setup, snap: Snapshot) {
    snap.state.Some? && c.cfg.carType in MODEL_NAMES && snap.state.value.pollOwned.carType == "" ==>
      snap.state.value.pollOwned.trimBadging in ["", MODEL_NAMES[c.cfg.carType]]
  }

  // Serving the cached translation gives, at every read, what translating again would.
  lemma {:induction false} CachedIsFresh(c: Setup, views: seq<Read>)
    requires OneContentPerTime(views) && TrimsSettle(c, views)
    ensures ReaderAfter(c, views).prev == PayloadAfter(c, views)
    ensures views != [] ==>
              Some(Serve(c, ReaderAfter(c, views[..|views| - 1]), views[|views| - 1]).1) == PayloadAfter(c, views)
    ensures Remembers(ReaderAfter(c, views), PayloadAfter(c, views), LastAsOf(views))
  {
    if views != [] {
      var front, v := views[..|views| - 1], views[|views| - 1];
      CachedIsFresh(c, front);
      var r := ReaderAfter(c, front);
      if front != [] {
        assert front[|front| - 1] == views[|views| - 2];
        if Hit(r, v.snap) {
          SameTimeIsSamePayload(c, views);
        }
      }
      AnswerStep(r, v.snap, PayloadAfter(c, views).value, PayloadAfter(c, front), LastAsOf(front));
    }
  }

  // The reader remembers the payload last made, and caches no other.
  predicate Remembers(r: Reader, last: Option<VehicleData>, lastAsOf: Time) {
    && r.prev == last
    && (r.cached.Some? ==> r.cached == last && r.cachedAsOf == lastAsOf && !IsZero(lastAsOf))
  }

  function LastAsOf(views: seq<Read>): Time {
    if views == [] then ZERO else AsOfTime(views[|views| - 1].snap)
  }

  lemma AnswerStep(r: Reader, snap: Snapshot, out: VehicleData, last: Option<VehicleData>, lastAsOf: Time)
    requires Remembers(r, last, lastAsOf) && ZERO <= lastAsOf <= AsOfTime(snap)
    requires Hit(r, snap) ==> last == Some(out)
    ensures Answer(r, snap, out).1 == out && Remembers(Answer(r, snap, out).0, Some(out), AsOfTime(snap))
  {
  }

  lemma SameTimeIsSamePayload(c: Setup, views: seq<Read>)
    requires |views| >= 2 && OneContentPerTime(views) && TrimsSettle(c, views)
    requires var (earlier, later) := (views[|views| - 2].snap, views[|views| - 1].snap);
             AsOfTime(earlier) == AsOfTime(later) && !IsZero(AsOfTime(later))
    ensures PayloadAfter(c, views) == PayloadAfter(c, views[..|views| - 1])
  {
    var front := views[..|views| - 1];
    var before := front[..|front| - 1];
    var earlier, later := views[|views| - 2], views[|views| - 1];
    assert front[|front| - 1] == earlier && SameContent(earlier.snap, later.snap);
    if before != [] {
      HoldsLastKnown(c, before);
    }
    RereadIsSame(c, PayloadAfter(c, before), earlier, later);
  }

  // Reading the same content at the same time again.
  lemma RereadIsSame(c: Setup, prev: Option<VehicleData>, earlier: Read, later: Read)
    requires SameContent(earlier.snap, later.snap)
    requires AsOfTime(earlier.snap) == AsOfTime(later.snap) && !IsZero(AsOfTime(later.snap))
    requires prev.Some? ==> Complete(prev.value)
    requires Settled(c, earlier.snap)
    ensures var once := Translate(c, prev, earlier.snap, earlier.now);
            Translate(c, Some(once), later.snap, later.now) == once
  {
    SettlesExactly(c, prev, earlier.snap, earlier.now);
  }

  // On a fresh reader, the same snapshot read twice is served as translating twice would
  // exactly when its trim settles.
  lemma TwoReadsAgreeExactly(c: Setup, v: Read, again: Read)
    requires v.snap == again.snap && !IsZero(AsOfTime(v.snap))
    ensures var r := Serve(c, NEW_READER, v).0;
            Some(Serve(c, r, again).1) == PayloadAfter(c, [v, again]) <==> Settled(c, v.snap)
  {
    var once := Translate(c, None, v.snap, v.now);
    assert [v, again][..1] == [v] && [v][..0] == [];
    assert PayloadAfter(c, [v]) == Some(once);
    assert PayloadAfter(c, [v, again]) == Some(Translate(c, Some(once), again.snap, again.now));
    assert Translate(c, Some(once), again.snap, again.now) == Translate(c, Some(once), v.snap, v.now);
    SettlesExactly(c, None, v.snap, v.now);
  }

  // ---------- What the reader serves from, whatever it is asked ----------

  // The reads up to the last one with a time of its own: what the cache was made from.
  function UpToTimed(views: seq<Read>): (r: seq<Read>)
    ensures r != [] ==> !IsZero(AsOfTime(r[|r| - 1].snap))
  {
    if views == [] || !IsZero(AsOfTime(views[|views| - 1].snap)) then views
    else UpToTimed(views[..|views| - 1])
  }

  // The time has been translated last, so the cache answers.
  predicate Known(translated: seq<Read>, snap: Snapshot) {
    var timed := UpToTimed(translated);
    timed != [] && AsOfTime(snap) == AsOfTime(timed[|timed| - 1].snap)
  }

  // The reads that are translated at all: those whose time is not the one translated last.
  function Translated(views: seq<Read>): seq<Read> {
    if views == [] then []
    else
      var seen, v := Translated(views[..|views| - 1]), views[|views| - 1];
      if Known(seen, v.snap) then seen else seen + [v]
  }

  // The translated reads the last payload comes from.
  function Basis(views: seq<Read>): (r: seq<Read>)
    requires views != []
    ensures r != []
  {
    var seen, v := Translated(views[..|views| - 1]), views[|views| - 1];
    if Known(seen, v.snap) then UpToTimed(seen) else seen + [v]
  }

  ghost predicate HoldsTranslated(c: Setup, r: Reader, translated: seq<Read>) {
    var timed := UpToTimed(translated);
    && r.prev == PayloadAfter(c, translated)
    && r.cached == PayloadAfter(c, timed)
    && (timed != [] ==> r.cachedAsOf == AsOfTime(timed[|timed| - 1].snap))
  }

  // On any reads at all - late, repeated, untimed, with time moving back - the cached reader
  // serves what translating its basis, and nothing else, gives.
  lemma {:induction false} ServesItsBasis(c: Setup, views: seq<Read>)
    ensures HoldsTranslated(c, ReaderAfter(c, views), Translated(views))
    ensures views != [] ==>
              Some(Serve(c, ReaderAfter(c, views[..|views| - 1]), views[|views| - 1]).1)
              == PayloadAfter(c, Basis(views))
  {
    if views != [] {
      var front, v := views[..|views| - 1], views[|views| - 1];
      ServesItsBasis(c, front);
      var seen := Translated(front);
      assert (seen + [v])[..|seen|] == seen;
      AnswersFrom(c, ReaderAfter(c, front), seen, v, PayloadAfter(c, seen + [v]).value);
    }
  }

  lemma AnswersFrom(c: Setup, r: Reader, seen: seq<Read>, v: Read, out: VehicleData)
    requires HoldsTranslated(c, r, seen) && Some(out) == PayloadAfter(c, seen + [v])
    ensures Hit(r, v.snap) <==> Known(seen, v.snap)
    ensures var (after, served) := Answer(r, v.snap, out);
            if Known(seen, v.snap)
            then HoldsTranslated(c, after, seen) && Some(served) == PayloadAfter(c, UpToTimed(seen))
            else HoldsTranslated(c, after, seen + [v]) && served == out
  {
    assert (seen + [v])[..|seen|] == seen;
  }

  // ---------- The two surfaces ----------

  // The last gear any of the reads reported.
  function GearInForce(views: seq<Read>): Gear {
    var known := LastState(views, HasGear);
    if known.Some? then known.value.gear else GearUnknown
  }

  lemma ShiftIsDriving(g: Gear)
    ensures MovingShift(Some(ShiftState(g))) <==> InDrive(g)
  {
    match g
    case GearUnknown =>
    case GearPark =>
    case GearDrive =>
    case GearReverse =>
    case GearNeutral =>
  }

  // What a payload says of liveness, from the reads it was translated from.
  lemma PayloadLiveness(c: Setup, views: seq<Read>)
    requires views != []
    ensures var v := PayloadAfter(c, views).value;
            && v.state == StateName(views[|views| - 1].snap)
            && StaleLiveness(v) == LostState(InDrive(GearInForce(views)))
  {
    HoldsLastKnown(c, views);
    ShiftIsDriving(GearInForce(views));
    ShiftIsDriving(GearUnknown);
    assert "P" == ShiftState(GearUnknown);
  }

  // The vehicle_data payload of the last read, as served, and the summary beside it.
  function ServedState(c: Setup, limit: Duration, views: seq<Read>, wall: Time): string
    requires views != []
  {
    var v := views[|views| - 1];
    DegradeIfStale(limit, Serve(c, ReaderAfter(c, views[..|views| - 1]), v).1, AsOfTime(v.snap), wall).state
  }

  // Over any reads, payload and summary of the last snapshot name the same state exactly when:
  // stale, the last gear translated and the snapshot's own agree on driving; fresh, the
  // snapshot last translated and this one name the same state.
  lemma SurfacesAgreeExactly(c: Setup, limit: Duration, views: seq<Read>, wall: Time)
    requires views != []
    ensures var snap := views[|views| - 1].snap;
            var basis := Basis(views);
            ServedState(c, limit, views, wall) == SummaryState(limit, snap, wall)
            <==> if IsStale(limit, AsOfTime(snap), wall) then InDrive(GearInForce(basis)) == InDrive(GearOf(snap))
                 else StateName(basis[|basis| - 1].snap) == StateName(snap)
  {
    var v := views[|views| - 1];
    ServesItsBasis(c, views);
    PayloadLiveness(c, Basis(views));
    NamesOfLost(InDrive(GearInForce(Basis(views))), InDrive(GearOf(v.snap)));
    var served := Serve(c, ReaderAfter(c, views[..|views| - 1]), v).1;
    assert Some(served) == PayloadAfter(c, Basis(views));
  }

  lemma NamesOfLost(a: bool, b: bool)
    ensures LostState(a) == LostState(b) <==> a == b
  {
    assert "offline"[0] != "asleep"[0];
  }

  // While one time means one content, they part exactly on a stale snapshot without a gear
  // over a moving one held from before.
  lemma SurfacesAgreeUnlessGearIsHeld(c: Setup, limit: Duration, views: seq<Read>, wall: Time)
    requires views != [] && OneContentPerTime(views)
    ensures var snap := views[|views| - 1].snap;
            ServedState(c, limit, views, wall) == SummaryState(limit, snap, wall)
            <==> !(IsStale(limit, AsOfTime(snap), wall) && GearOf(snap) == GearUnknown
                   && InDrive(GearInForce(Basis(views))))
  {
    SurfacesAgreeExactly(c, limit, views, wall);
    BasisIsCurrent(views);
  }

  // The read a payload was last translated from has the content of the last read.
  lemma BasisIsCurrent(views: seq<Read>)
    requires views != [] && OneContentPerTime(views)
    ensures var basis := Basis(views);
            SameContent(basis[|basis| - 1].snap, views[|views| - 1].snap)
  {
    var front := views[..|views| - 1];
    var seen := Translated(front);
    if Known(seen, views[|views| - 1].snap) {
      TranslatedAreReads(front);
      var timed := UpToTimed(seen);
      TimedAreReads(seen);
      var last := timed[|timed| - 1];
      assert last in front;
      var i :| 0 <= i < |front| && front[i] == last;
      assert views[i] == last;
    }
  }

  lemma {:induction false} TranslatedAreReads(views: seq<Read>)
    ensures forall v <- Translated(views) :: v in views
  {
    if views != [] {
      TranslatedAreReads(views[..|views| - 1]);
    }
  }

  lemma {:induction false} TimedAreReads(views: seq<Read>)
    ensures forall v <- UpToTimed(views) :: v in views
  {
    if views != [] {
      TimedAreReads(views[..|views| - 1]);
    }
  }

  // Two reads of one time, the second after a late poll: the second is served the first's
  // payload.
  lemma LateReadHasOldBasis(first: Read, late: Read)
    requires AsOfTime(first.snap) == AsOfTime(late.snap) && !IsZero(AsOfTime(first.snap))
    ensures Basis([first, late]) == [first]
  {
    assert [first, late][..1] == [first] && [first][..0] == [];
    assert Translated([first]) == [first];
  }

  // Nothing is stale: a late poll has put the parked car to sleep, and the payload still says
  // online.
  lemma LateSleepIsUnseen(c: Setup, limit: Duration, first: Read, late: Read, wall: Time)
    requires AsOfTime(first.snap) == AsOfTime(late.snap) && !IsZero(AsOfTime(first.snap))
    requires !IsStale(limit, AsOfTime(late.snap), wall)
    requires PowerOf(first.snap) == PowerOnline && PowerOf(late.snap) == PowerSleep
    ensures ServedState(c, limit, [first, late], wall) == "online"
    ensures SummaryState(limit, late.snap, wall) == "asleep"
  {
    LateReadHasOldBasis(first, late);
    ServesItsBasis(c, [first, late]);
    PayloadLiveness(c, [first]);
  }

  // Stale: a late poll has parked the car, and the payload still says it was lost driving.
  lemma LateParkIsUnseen(c: Setup, limit: Duration, first: Read, late: Read, wall: Time)
    requires AsOfTime(first.snap) == AsOfTime(late.snap) && !IsZero(AsOfTime(first.snap))
    requires IsStale(limit, AsOfTime(late.snap), wall)
    requires GearOf(first.snap) == GearDrive && GearOf(late.snap) == GearPark
    ensures ServedState(c, limit, [first, late], wall) == "offline"
    ensures SummaryState(limit, late.snap, wall) == "asleep"
  {
    LateReadHasOldBasis(first, late);
    ServesItsBasis(c, [first, late]);
    PayloadLiveness(c, [first]);
  }

  // A payload is served as translated until it is stale; then only its state changes, to offline
  // over a moving gear and asleep otherwise.
  lemma DegradedInWords(limit: Duration, v: VehicleData, asOf: Time, now: Time)
    ensures var out := DegradeIfStale(limit, v, asOf, now);
            var stale := 0 < limit < 9_223_372_036_854_775_807 && asOf != -62_135_596_800_000_000_000
                         && now - asOf > limit;
            var moving := v.driveState.Some? && v.driveState.value.shiftState in [Some("D"), Some("R"), Some("N")];
            && out.(state := v.state) == v
            && out.state == if !stale then v.state else if moving then "offline" else "asleep"
  {
  }

  // The reads answered from the cache are all that were not translated.
  lemma {:induction false} HitsAreCounted(c: Setup, views: seq<Read>)
    ensures ReaderAfter(c, views).hits + |Translated(views)| == |views|
  {
    if views != [] {
      var front := views[..|views| - 1];
      HitsAreCounted(c, front);
      ServesItsBasis(c, front);
      HitIsKnown(c, ReaderAfter(c, front), Translated(front), views[|views| - 1]);
    }
  }

  lemma HitIsKnown(c: Setup, r: Reader, seen: seq<Read>, v: Read)
    requires HoldsTranslated(c, r, seen)
    ensures Hit(r, v.snap) <==> Known(seen, v.snap)
    ensures Serve(c, r, v).0.hits == r.hits + if Known(seen, v.snap) then 1 else 0
  {
  }
}
