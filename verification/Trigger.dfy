/** Session and wake detection on the stream path: the drive-boundary debouncer, the wake
    debouncer, the charge edges, and the opened/closed counters they feed. */
module Trigger {
  import opened Clock
  import opened Vehicle

  const DRIVE_FLAP_WINDOW := 5 * SECOND
  const WAKE_FRAME_THRESHOLD := 3
  const WAKE_SUSTAIN_WINDOW := 3 * SECOND

  // ---------- Wake debouncer ----------

  datatype Wake = Wake(count: nat, first: Time, fired: bool)

  const WAKE_START := Wake(0, ZERO, false)

  function WakeFrame(w: Wake, sleeping: bool, t: Time): (Wake, bool) {
    if !sleeping then (w.(count := 0, fired := false), false)
    else
      var first := if w.count == 0 then t else w.first;
      var count := w.count + 1;
      if w.fired || count < WAKE_FRAME_THRESHOLD || Sub(t, first) < WAKE_SUSTAIN_WINDOW
      then (Wake(count, first, w.fired), false)
      else (Wake(count, first, true), true)
  }

  class WakeDebouncer {
    var count: nat
    var first: Time
    var fired: bool

    ghost function Value(): Wake
      reads this
    {
      Wake(count, first, fired)
    }

    constructor ()
      ensures Value() == WAKE_START
    {
      count, first, fired := 0, ZERO, false;
    }

    method Frame(sleeping: bool, t: Time) returns (wake: bool)
      modifies this
      ensures (Value(), wake) == WakeFrame(old(Value()), sleeping, t)
    {
      if !sleeping {
        count := 0;
        fired := false;
        return false;
      }
      if count == 0 {
        first := t;
      }
      count := count + 1;
      if fired || count < WAKE_FRAME_THRESHOLD || Sub(t, first) < WAKE_SUSTAIN_WINDOW {
        return false;
      }
      fired := true;
      return true;
    }
  }

  datatype SleepFrame = SleepFrame(sleeping: bool, t: Time)

  function WakeAfter(frames: seq<SleepFrame>, n: nat): Wake
    requires n <= |frames|
  {
    if n == 0 then WAKE_START else WakeFrame(WakeAfter(frames, n - 1), frames[n - 1].sleeping, frames[n - 1].t).0
  }

  predicate WakeFiresAt(frames: seq<SleepFrame>, i: nat)
    requires i < |frames|
  {
    WakeFrame(WakeAfter(frames, i), frames[i].sleeping, frames[i].t).1
  }

  // First frame of the unbroken asleep run that reaches up to frame i.
  function RunStart(frames: seq<SleepFrame>, i: nat): (s: nat)
    requires i < |frames|
    ensures s <= i
    ensures forall j :: s <= j < i ==> frames[j].sleeping
    ensures 0 < s ==> !frames[s - 1].sleeping
  {
    if i == 0 || !frames[i - 1].sleeping then i else RunStart(frames, i - 1)
  }

  // Frame i is at least the third of its run and the run already spans the window.
  predicate Confirms(frames: seq<SleepFrame>, i: nat)
    requires i < |frames|
  {
    var s := RunStart(frames, i);
    i - s + 1 >= 3 && frames[i].t - frames[s].t >= 3_000_000_000
  }

  lemma {:induction false} WakeState(frames: seq<SleepFrame>, n: nat)
    requires n <= |frames|
    ensures var w := WakeAfter(frames, n);
            if n == 0 || !frames[n - 1].sleeping then w.count == 0 && !w.fired
            else
              var s := RunStart(frames, n - 1);
              && w.count == n - s
              && w.first == frames[s].t
              && (w.fired <==> exists j :: s <= j < n && Confirms(frames, j))
  {
    if 0 < n {
      WakeState(frames, n - 1);
      if frames[n - 1].sleeping {
        var s := RunStart(frames, n - 1);
        if 1 < n && frames[n - 2].sleeping {
          assert RunStart(frames, n - 2) == s;
        } else {
          assert s == n - 1;
        }
        assert forall j :: s <= j < n ==> RunStart(frames, j) == s by {
          forall j | s <= j < n ensures RunStart(frames, j) == s { SameRun(frames, s, j); }
        }
        assert WakeAfter(frames, n).fired <==> WakeAfter(frames, n - 1).fired || Confirms(frames, n - 1);
      }
    }
  }

  lemma {:induction false} SameRun(frames: seq<SleepFrame>, s: nat, j: nat)
    requires s <= j < |frames| && forall k :: s <= k < j ==> frames[k].sleeping
    ensures RunStart(frames, j) == RunStart(frames, s)
  {
    if s < j {
      SameRun(frames, s, j - 1);
    }
  }

  // A wake fires at frame i exactly when i is asleep and is the first frame of its
  // maximal asleep run that confirms the run.
  lemma WakeFiresExactly(frames: seq<SleepFrame>, i: nat)
    requires i < |frames|
    ensures WakeFiresAt(frames, i)
       <==> && frames[i].sleeping
            && Confirms(frames, i)
            && forall j :: RunStart(frames, i) <= j < i ==> !Confirms(frames, j)
  {
    WakeState(frames, i);
    var s := RunStart(frames, i);
    if 0 < i && frames[i - 1].sleeping {
      assert RunStart(frames, i - 1) == s;
    }
  }

  // No asleep run fires twice.
  lemma OneWakePerRun(frames: seq<SleepFrame>, i: nat, k: nat)
    requires i < k < |frames|
    requires WakeFiresAt(frames, i) && WakeFiresAt(frames, k)
    ensures exists j :: i < j < k && !frames[j].sleeping
  {
    WakeFiresExactly(frames, i);
    WakeFiresExactly(frames, k);
    var s := RunStart(frames, k);
    assert i < s;
    assert i != s - 1;
    assert !frames[s - 1].sleeping;
  }

  // ---------- Drive debouncer ----------

  // Last fired classification, when it fired, and whether the baseline has been seeded.
  datatype Drive = Drive(driving: bool, at: Time, seeded: bool)

  const DRIVE_START := Drive(false, ZERO, false)

  function DriveBoundary(d: Drive, prev: Gear, now: Gear, t: Time): (Drive, bool) {
    var base := if d.seeded then d.driving else InDrive(prev);
    var kept := Drive(base, d.at, true);
    if InDrive(now) == base || Sub(t, d.at) < DRIVE_FLAP_WINDOW then (kept, false)
    else (Drive(InDrive(now), t, true), true)
  }

  class DriveDebouncer {
    var driving: bool
    var at: Time
    var seeded: bool

    ghost function Value(): Drive
      reads this
    {
      Drive(driving, at, seeded)
    }

    constructor ()
      ensures Value() == DRIVE_START
    {
      driving, at, seeded := false, ZERO, false;
    }

    method Boundary(prev: Gear, now: Gear, t: Time) returns (fired: bool)
      modifies this
      ensures (Value(), fired) == DriveBoundary(old(Value()), prev, now, t)
    {
      if !seeded {
        driving := InDrive(prev);
        seeded := true;
      }
      var nc := InDrive(now);
      if nc == driving {
        return false;
      }
      if Sub(t, at) < DRIVE_FLAP_WINDOW {
        return false;
      }
      driving := nc;
      at := t;
      return true;
    }
  }

  datatype GearFrame = GearFrame(prev: Gear, now: Gear, t: Time)

  datatype Fire = Fire(driving: bool, at: Time)

  function DriveAfter(frames: seq<GearFrame>): Drive {
    if frames == [] then DRIVE_START
    else
      var f := frames[|frames| - 1];
      DriveBoundary(DriveAfter(frames[..|frames| - 1]), f.prev, f.now, f.t).0
  }

  // The boundaries fired along a frame sequence, oldest first.
  function Fired(frames: seq<GearFrame>): seq<Fire> {
    if frames == [] then []
    else
      var before := frames[..|frames| - 1];
      var f := frames[|frames| - 1];
      if DriveBoundary(DriveAfter(before), f.prev, f.now, f.t).1
      then Fired(before) + [Fire(InDrive(f.now), f.t)]
      else Fired(before)
  }

  predicate Seed(frames: seq<GearFrame>) {
    frames != [] && InDrive(frames[0].prev)
  }

  function LastFired(frames: seq<GearFrame>): Fire {
    if Fired(frames) == [] then Fire(Seed(frames), ZERO) else Fired(frames)[|Fired(frames)| - 1]
  }

  // Boundaries strictly alternate, starting away from the seeded class, and successive
  // ones are at least the flap window apart in frame time.
  predicate AlternatesApart(seed: bool, fires: seq<Fire>) {
    && (fires != [] ==> fires[0].driving != seed)
    && forall k :: 0 < k < |fires| ==>
         fires[k].driving != fires[k - 1].driving && fires[k].at - fires[k - 1].at >= 5_000_000_000
  }

  function Opens(fires: seq<Fire>): nat {
    if fires == [] then 0
    else Opens(fires[..|fires| - 1]) + if fires[|fires| - 1].driving then 1 else 0
  }

  function Closes(fires: seq<Fire>): nat {
    if fires == [] then 0
    else Closes(fires[..|fires| - 1]) + if fires[|fires| - 1].driving then 0 else 1
  }

  lemma {:induction false} DriveState(frames: seq<GearFrame>)
    requires frames != []
    ensures DriveAfter(frames) == Drive(LastFired(frames).driving, LastFired(frames).at, true)
    ensures AlternatesApart(Seed(frames), Fired(frames))
  {
    var before := frames[..|frames| - 1];
    if before != [] {
      DriveState(before);
    }
  }

  lemma {:induction false} AlternationBalances(seed: bool, fires: seq<Fire>)
    requires AlternatesApart(seed, fires)
    ensures var last := if fires == [] then seed else fires[|fires| - 1].driving;
            Opens(fires) - Closes(fires) == (if last then 1 else 0) - (if seed then 1 else 0)
  {
    if fires != [] {
      AlternationBalances(seed, fires[..|fires| - 1]);
    }
  }

  // Over any frame sequence, in or out of time order: boundaries alternate and keep their
  // distance, and opened minus closed is the current class minus the seeded one.
  lemma DriveSessionsBalance(frames: seq<GearFrame>)
    requires frames != []
    ensures AlternatesApart(Seed(frames), Fired(frames))
    ensures Opens(Fired(frames)) - Closes(Fired(frames))
         == (if DriveAfter(frames).driving then 1 else 0) - (if Seed(frames) then 1 else 0)
  {
    DriveState(frames);
    AlternationBalances(Seed(frames), Fired(frames));
  }

  // A frame at least the window after the last boundary (after the zero instant when none
  // has fired) leaves the class equal to the car's actual gear class; an earlier frame
  // cannot move it.
  lemma DriveSettles(frames: seq<GearFrame>)
    requires frames != []
    ensures var before := frames[..|frames| - 1];
            var f := frames[|frames| - 1];
            var base := if before == [] then InDrive(f.prev) else LastFired(before).driving;
            var last := if before == [] then ZERO else LastFired(before).at;
            DriveAfter(frames).driving == if f.t - last >= 5_000_000_000 then InDrive(f.now) else base
  {
    var before := frames[..|frames| - 1];
    if before != [] {
      DriveState(before);
    }
  }

  // ---------- Charge edges ----------

  predicate Charging(s: Snapshot) {
    s.live.Some? && s.live.value.powerKw > 0.0
  }

  predicate ChargeEnded(prev: Snapshot, raw: Snapshot) {
    && Charging(prev)
    && StreamChargePower in raw.streamPresent
    && (raw.live.None? || raw.live.value.powerKw == 0.0)
  }

  predicate ChargeStarted(prev: Snapshot, raw: Snapshot) {
    && !Charging(prev)
    && StreamChargePower in raw.streamPresent
    && Charging(raw)
  }

  // ---------- Counters ----------

  datatype Sessions = Sessions(drivesOpened: nat, drivesClosed: nat, chargesOpened: nat, chargesClosed: nat)

  const NO_SESSIONS := Sessions(0, 0, 0, 0)

  function Tallied(s: Sessions, drive: bool, driving: bool, endCharge: bool, started: bool): Sessions {
    var s1 := if !drive then s
              else if driving then s.(drivesOpened := s.drivesOpened + 1)
              else s.(drivesClosed := s.drivesClosed + 1);
    if endCharge then s1.(chargesClosed := s1.chargesClosed + 1)
    else if started then s1.(chargesOpened := s1.chargesOpened + 1)
    else s1
  }

  /** The session counters shared by every vehicle. */
  class SessionCounters {
    var drivesOpened: nat
    var drivesClosed: nat
    var chargesOpened: nat
    var chargesClosed: nat

    ghost function Value(): Sessions
      reads this
    {
      Sessions(drivesOpened, drivesClosed, chargesOpened, chargesClosed)
    }

    constructor ()
      ensures Value() == NO_SESSIONS
    {
      drivesOpened, drivesClosed, chargesOpened, chargesClosed := 0, 0, 0, 0;
    }

    // A fired drive boundary is an open when the merged gear is a moving one.
    method DriveFired(merged: Gear)
      modifies this
      ensures Value() == Tallied(old(Value()), true, InDrive(merged), false, false)
    {
      if InDrive(merged) {
        drivesOpened := drivesOpened + 1;
      } else {
        drivesClosed := drivesClosed + 1;
      }
    }

    method ChargeOpened()
      modifies this
      ensures Value() == Tallied(old(Value()), false, false, false, true)
    {
      chargesOpened := chargesOpened + 1;
    }

    method ChargeClosed()
      modifies this
      ensures Value() == Tallied(old(Value()), false, false, true, false)
    {
      chargesClosed := chargesClosed + 1;
    }
  }
}
