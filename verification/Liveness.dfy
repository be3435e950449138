/** Served liveness over whole runs: the offline episode, its latch, and who may change it. */
module Liveness {
  import opened Clock
  import opened Vehicle
  import opened MergeModel
  import opened Registers

  predicate IsReport(e: Event) {
    e.PollEvent? && e.snap.state.Some?
  }

  predicate IsOffline(e: Event) {
    IsReport(e) && e.snap.state.value.power == PowerOffline
  }

  // Length of the unbroken run of offline reports that ends the history. Frames and polls
  // without a state neither extend nor break it.
  function OfflineRun(es: seq<Event>): nat {
    if es == [] then 0
    else if !IsReport(Last(es)) then OfflineRun(Front(es))
    else if IsOffline(Last(es)) then OfflineRun(Front(es)) + 1
    else 0
  }

  // Index of the first report of the episode that ends the history.
  function EpisodeStart(es: seq<Event>): (k: nat)
    requires OfflineRun(es) > 0
    ensures k < |es| && IsOffline(es[k])
  {
    if IsReport(Last(es)) && OfflineRun(Front(es)) == 0 then |es| - 1 else EpisodeStart(Front(es))
  }

  // The car was in a moving gear when contact was lost.
  predicate LostDriving(cfg: Config, m: Merge, es: seq<Event>) {
    OfflineRun(es) > 0 && InDrive(GearOf(Run(cfg, m, es[..EpisodeStart(es)]).snap))
  }

  lemma {:induction false} StartIsStable(es: seq<Event>)
    requires es != [] && OfflineRun(es) > 0 && OfflineRun(Front(es)) > 0
    ensures EpisodeStart(es) == EpisodeStart(Front(es))
    ensures es[..EpisodeStart(es)] == Front(es)[..EpisodeStart(es)]
  {
  }

  lemma {:induction false} EpisodeIsLatched(cfg: Config, floor: Time, es: seq<Event>)
    ensures var m := Run(cfg, NewMerge(floor), es);
            && m.offlineCount == OfflineRun(es)
            && m.offlineDriving == LostDriving(cfg, NewMerge(floor), es)
  {
    if es != [] {
      EpisodeIsLatched(cfg, floor, Front(es));
      if OfflineRun(es) > 0 && OfflineRun(Front(es)) > 0 {
        StartIsStable(es);
      }
    }
  }

  // An offline report is served asleep exactly when it is at least the second of its episode
  // and the episode did not start in a moving gear; otherwise it is served offline.
  lemma SettledOfflineIsAsleep(cfg: Config, floor: Time, es: seq<Event>)
    requires es != [] && IsOffline(Last(es))
    ensures PowerOf(Run(cfg, NewMerge(floor), es).snap)
         == if OfflineRun(es) >= 2 && !LostDriving(cfg, NewMerge(floor), es)
            then PowerSleep else PowerOffline
  {
    EpisodeIsLatched(cfg, floor, es);
    EpisodeIsLatched(cfg, floor, Front(es));
    if OfflineRun(Front(es)) > 0 {
      StartIsStable(es);
    }
  }

  predicate PollsCarryState(es: seq<Event>) {
    forall i :: 0 <= i < |es| && es[i].PollEvent? ==> es[i].snap.state.Some?
  }

  predicate FramesNeverClaimSleep(es: seq<Event>) {
    forall i :: 0 <= i < |es| && es[i].FrameEvent? && es[i].snap.state.Some? ==>
      es[i].snap.state.value.power != PowerSleep
  }

  // A car lost while driving is never served asleep until a report other than offline ends
  // the episode, whatever frames interleave and however stale both signals grow.
  lemma {:induction false} LostDriveNeverSleeps(cfg: Config, floor: Time, es: seq<Event>)
    requires PollsCarryState(es) || FramesNeverClaimSleep(es)
    requires LostDriving(cfg, NewMerge(floor), es)
    ensures var s := Run(cfg, NewMerge(floor), es).snap;
            PowerOf(s) != PowerSleep && (PollsCarryState(es) ==> s.state.Some?)
  {
    if IsReport(Last(es)) {
      SettledOfflineIsAsleep(cfg, floor, es);
    } else {
      StartIsStable(es);
      assert PollsCarryState(es) ==> PollsCarryState(Front(es));
      assert FramesNeverClaimSleep(es) ==> FramesNeverClaimSleep(Front(es));
      LostDriveNeverSleeps(cfg, floor, Front(es));
    }
  }

  // ---------- Who may change liveness ----------

  predicate PollTooOld(allowance: int, fetchedAt: int, now: int) {
    fetchedAt == -62_135_596_800_000_000_000 || now - fetchedAt > allowance
  }

  // A report of sleep, or of nothing known, is served as it is.
  lemma OtherReportsAreServed(cfg: Config, m: Merge, poll: Snapshot, now: Time)
    requires poll.state.Some? && (poll.state.value.power == PowerSleep || poll.state.value.power == PowerUnknown)
    ensures var after := PollStep(cfg, m, poll, now);
            PowerOf(after.snap) == poll.state.value.power && after.offlineCount == 0 && !after.offlineDriving
  {
  }

  // A report of an online car is served online unless the stream has stalled and that very
  // report is stale as well.
  lemma OnlineReportIsServed(cfg: Config, m: Merge, poll: Snapshot, now: Time)
    requires poll.state.Some? && poll.state.value.power == PowerOnline
    ensures PowerOf(PollStep(cfg, m, poll, now).snap)
         == if Expired(cfg.staleAfter, m.snap.streamFields, now) && PollTooOld(cfg.staleAfter, poll.fetchedAt, now)
            then PowerOffline else PowerOnline
  {
  }

  // A frame never wakes a sleeping car, and makes any other served car online unless the
  // frame itself is stalled while the poll is stale.
  lemma FrameMakesOnline(cfg: Config, m: Merge, frame: Snapshot, now: Time)
    requires m.snap.state.Some? && frame.state.Some?
    ensures PowerOf(MergeFrame(cfg, m, frame, now).snap)
         == if Asleep(m.snap) then PowerSleep
            else if Expired(cfg.staleAfter, frame.fetchedAt, now)
                    && PollTooOld(cfg.staleAfter, m.snap.fetchedAt, now) then PowerOffline
            else PowerOnline
  {
  }
}
