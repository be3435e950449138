/** One consumer's broadcaster against the merger that feeds it: a four-slot channel that
    drops on full, and a loop that coalesces pushes. Every lock-held region, channel
    operation and clock read is its own step, so merges may land between any two of them. */
module Broadcast {
  import opened Clock
  import opened Vehicle
  import opened MergeModel
  import opened Merger
  import opened DataUpdate

  type Columns12 = Option<seq<string>>

  // minInterval is the coalescing window; zero or less turns coalescing off.
  datatype Setup = Setup(minInterval: Duration, numerals: Numerals)

  datatype Place =
    | Waiting
    | Deciding
    | Reading
    | Sending(snap: Snapshot)
    | Pushed
    | Stopped

  // heard: an event has been put in the channel since the consumer subscribed. shown: the
  // columns last pushed. pushes: when each live push was made.
  datatype System = System(
    latest: Snapshot,
    queued: nat,
    heard: bool,
    now: Time,
    at: Place,
    pending: bool,
    lastPush: Time,
    shown: Columns12,
    pushes: seq<Time>)

  datatype Move =
    | Wait(elapsed: Duration)
    | MergeTo(next: Snapshot)
    | TakeEvent
    | Decide
    | CoalesceTick
    | ReadLatest
    | Send(ok: bool)
    | ClearPending
    | Close

  // Just subscribed: whatever the replay pushed last is what the consumer has.
  function Start(latest: Snapshot, replayed: Columns12, lastPush: Time, now: Time): System {
    System(latest, 0, false, now, Waiting, false, lastPush, replayed, [])
  }

  predicate Enabled(c: Setup, s: System, m: Move) {
    match m
    case Wait(elapsed) => 0 <= elapsed
    case MergeTo(_) => true
    case TakeEvent => s.at.Waiting? && s.queued > 0
    case Decide => s.at.Deciding?
    case CoalesceTick => s.at.Waiting? && c.minInterval > 0
    case ReadLatest => s.at.Reading?
    case Send(_) => s.at.Sending?
    case ClearPending => s.at.Pushed?
    case Close => s.at.Waiting?
  }

  predicate TooSoon(c: Setup, s: System) {
    c.minInterval > 0 && Sub(s.now, s.lastPush) < c.minInterval
  }

  function Next(c: Setup, s: System, m: Move): System
    requires Enabled(c, s, m)
  {
    match m
    case Wait(elapsed) => s.(now := s.now + elapsed)
    case MergeTo(next) =>
      if StreamChanged(s.latest, next) then s.(latest := next, queued := Enqueued(s.queued), heard := true)
      else s.(latest := next)
    case TakeEvent => s.(queued := s.queued - 1, at := Deciding)
    case Decide => if TooSoon(c, s) then s.(pending := true, at := Waiting) else s.(at := Reading)
    case CoalesceTick => if s.pending && !TooSoon(c, s) then s.(at := Reading) else s
    case ReadLatest => s.(at := Sending(s.latest))
    case Send(ok) =>
      var cols := ColumnsOf(c.numerals, s.at.snap);
      if cols.None? then s.(at := Pushed)
      else if ok then s.(lastPush := s.now, shown := cols, pushes := s.pushes + [s.now], at := Pushed)
      else s.(lastPush := s.now, at := Stopped)
    case ClearPending => s.(pending := false, at := Waiting)
    case Close => s.(at := Stopped)
  }

  predicate Valid(c: Setup, s: System, ms: seq<Move>)
    decreases |ms|, 0
  {
    ms == [] || (Valid(c, s, Front(ms)) && Enabled(c, Reached(c, s, Front(ms)), Last(ms)))
  }

  function Reached(c: Setup, s: System, ms: seq<Move>): System
    requires Valid(c, s, ms)
    decreases |ms|, 1
  {
    if ms == [] then s else Next(c, Reached(c, s, Front(ms)), Last(ms))
  }

  // ---------- No lost update ----------

  // The consumer has what is served, or nothing is served yet.
  predicate CaughtUp(c: Setup, s: System) {
    ColumnsOf(c.numerals, s.latest).None? || s.shown == ColumnsOf(c.numerals, s.latest)
  }

  // Work that is bound to bring the consumer up to date, or no need for any.
  predicate Owed(c: Setup, s: System) {
    match s.at
    case Waiting => CaughtUp(c, s) || s.queued > 0 || s.pending
    case Deciding => true
    case Reading => true
    case Sending(snap) => ColumnsOf(c.numerals, snap) == ColumnsOf(c.numerals, s.latest) || s.queued > 0
    case Pushed => CaughtUp(c, s) || s.queued > 0
    case Stopped => true
  }

  // synced: the consumer was up to date when it subscribed.
  predicate Tracks(c: Setup, s: System, synced: bool) {
    synced || s.heard ==> Owed(c, s)
  }

  lemma MoveTracks(c: Setup, s: System, m: Move, synced: bool)
    requires Tracks(c, s, synced) && Enabled(c, s, m)
    ensures Tracks(c, Next(c, s, m), synced)
  {
    if m.MergeTo? && ColumnsOf(c.numerals, s.latest) != ColumnsOf(c.numerals, m.next) {
      ColumnMovesAreChanges(c.numerals, s.latest, m.next);
    }
  }

  lemma {:induction false} RunTracks(c: Setup, s: System, ms: seq<Move>, synced: bool)
    requires Tracks(c, s, synced) && Valid(c, s, ms)
    ensures Tracks(c, Reached(c, s, ms), synced)
  {
    if ms != [] {
      RunTracks(c, s, Front(ms), synced);
      MoveTracks(c, Reached(c, s, Front(ms)), Last(ms), synced);
    }
  }

  // Some merge since the consumer subscribed moved a pushed value.
  predicate SawChange(c: Setup, start: System, ms: seq<Move>)
    requires Valid(c, start, ms)
  {
    ms != [] && (SawChange(c, start, Front(ms))
                 || (Last(ms).MergeTo? && StreamChanged(Reached(c, start, Front(ms)).latest, Last(ms).next)))
  }

  lemma {:induction false} HeardIsHistory(c: Setup, start: System, ms: seq<Move>)
    requires Valid(c, start, ms) && !start.heard
    ensures Reached(c, start, ms).heard <==> SawChange(c, start, ms)
  {
    if ms != [] {
      HeardIsHistory(c, start, Front(ms));
    }
  }

  // In every reachable state after the first change - whatever was dropped by the full channel
  // and however merges interleave - the last pushed columns are the served ones, or an event is
  // queued, or a push is pending or under way.
  lemma NoLostUpdate(c: Setup, latest: Snapshot, replayed: Columns12, lastPush: Time, now: Time, ms: seq<Move>)
    requires Valid(c, Start(latest, replayed, lastPush, now), ms)
    ensures var start := Start(latest, replayed, lastPush, now);
            SawChange(c, start, ms) ==> Owed(c, Reached(c, start, ms))
  {
    RunTracks(c, Start(latest, replayed, lastPush, now), ms, false);
    HeardIsHistory(c, Start(latest, replayed, lastPush, now), ms);
  }

  predicate Quiet(s: System) {
    s.at.Waiting? && s.queued == 0 && !s.pending
  }

  ghost predicate AlwaysCaughtUpWhenQuiet(c: Setup, start: System) {
    forall ms :: Valid(c, start, ms) && Quiet(Reached(c, start, ms)) ==> CaughtUp(c, Reached(c, start, ms))
  }

  // Before the first event nothing is owed, so an idle consumer is always up to date exactly
  // when the replay left it up to date at the moment it subscribed.
  lemma QuietMeansCaughtUpExactly(c: Setup, latest: Snapshot, replayed: Columns12, lastPush: Time, now: Time)
    ensures var start := Start(latest, replayed, lastPush, now);
            AlwaysCaughtUpWhenQuiet(c, start) <==> CaughtUp(c, start)
  {
    var start := Start(latest, replayed, lastPush, now);
    if CaughtUp(c, start) {
      forall ms | Valid(c, start, ms) && Quiet(Reached(c, start, ms))
        ensures CaughtUp(c, Reached(c, start, ms))
      {
        RunTracks(c, start, ms, true);
      }
    } else {
      assert Valid(c, start, []) && Quiet(Reached(c, start, []));
    }
  }

  // ---------- Rate ----------

  predicate Paced(c: Setup, s: System) {
    c.minInterval > 0 ==>
      && (s.at.Reading? || s.at.Sending? ==> !TooSoon(c, s))
      && (s.pushes != [] && !s.at.Stopped? ==> s.lastPush == Last(s.pushes))
      && forall i :: 0 < i < |s.pushes| ==> s.pushes[i] - s.pushes[i - 1] >= c.minInterval
  }

  lemma MovePaced(c: Setup, s: System, m: Move)
    requires Paced(c, s) && Enabled(c, s, m)
    ensures Paced(c, Next(c, s, m))
  {
  }

  // Live pushes are at least the coalescing window apart.
  lemma {:induction false} PushesAreSpaced(c: Setup, start: System, ms: seq<Move>)
    requires start.pushes == [] && start.at.Waiting? && Valid(c, start, ms)
    ensures Paced(c, Reached(c, start, ms))
  {
    if ms != [] {
      PushesAreSpaced(c, start, Front(ms));
      MovePaced(c, Reached(c, start, Front(ms)), Last(ms));
    }
  }

  // ---------- Progress ----------

  lemma {:induction false} Chain(c: Setup, s: System, a: seq<Move>, b: seq<Move>)
    requires Valid(c, s, a) && Valid(c, Reached(c, s, a), b)
    ensures Valid(c, s, a + b) && Reached(c, s, a + b) == Reached(c, Reached(c, s, a), b)
  {
    if b == [] {
      assert a + b == a;
    } else {
      Chain(c, s, a, Front(b));
      assert Front(a + b) == a + Front(b) && Last(a + b) == Last(b);
    }
  }

  predicate NoMerges(ms: seq<Move>) {
    forall i :: 0 <= i < |ms| ==> !ms[i].MergeTo? && (ms[i].Send? ==> ms[i].ok)
  }

  lemma OneMove(c: Setup, s: System, m: Move)
    requires Enabled(c, s, m)
    ensures Valid(c, s, [m]) && Reached(c, s, [m]) == Next(c, s, m)
  {
    assert Front([m]) == [] && Last([m]) == m;
    assert Valid(c, s, []);
  }

  function Overdue(c: Setup, s: System): Duration {
    if c.minInterval > 0 && s.lastPush + c.minInterval > s.now then s.lastPush + c.minInterval - s.now else 0
  }

  // How much work is left before the loop is idle with nothing pending.
  function Backlog(s: System): nat {
    s.queued * 8 +
    match s.at
    case Waiting => if s.pending then 6 else 0
    case Deciding => 7
    case Reading => 4
    case Sending(_) => 3
    case Pushed => 2
    case Stopped => 0
  }

  // One move that waits out the window if need be and leaves less work.
  lemma Progress(c: Setup, s: System) returns (ms: seq<Move>)
    requires c.minInterval <= MAX_DURATION && !s.at.Stopped? && !Quiet(s)
    requires s.pending ==> c.minInterval > 0
    ensures Valid(c, s, ms) && NoMerges(ms)
    ensures var s' := Reached(c, s, ms);
            && Backlog(s') < Backlog(s)
            && s'.latest == s.latest && !s'.at.Stopped? && (s'.pending ==> c.minInterval > 0)
  {
    var m := match s.at
             case Waiting => if s.queued > 0 then TakeEvent else CoalesceTick
             case Deciding => Decide
             case Reading => ReadLatest
             case Sending(_) => Send(true)
             case Pushed => ClearPending;
    var w := Wait(Overdue(c, s));
    OneMove(c, s, w);
    var s1 := Next(c, s, w);
    OneMove(c, s1, m);
    Chain(c, s, [w], [m]);
    ms := [w] + [m];
  }

  // Once merges stop, the loop can always finish its work, and then the consumer has exactly
  // what is served.
  lemma {:induction false} Drains(c: Setup, s: System) returns (ms: seq<Move>)
    requires c.minInterval <= MAX_DURATION && !s.at.Stopped?
    requires (s.pending ==> c.minInterval > 0) && Tracks(c, s, true)
    ensures Valid(c, s, ms) && NoMerges(ms)
    ensures var s' := Reached(c, s, ms);
            Quiet(s') && s'.latest == s.latest && CaughtUp(c, s')
    decreases Backlog(s)
  {
    if Quiet(s) {
      ms := [];
    } else {
      var first := Progress(c, s);
      RunTracks(c, s, first, true);
      var rest := Drains(c, Reached(c, s, first));
      Chain(c, s, first, rest);
      ms := first + rest;
    }
  }
}
