/** The payload reader over a merger: when the served time tells the reader enough. */
module ReaderRuns {
  import opened Clock
  import opened Vehicle
  import opened MergeModel
  import opened ServedTime
  import opened Payload
  import opened PayloadReader

  // What is served after the first k merges.
  function ServedAt(cfg: Config, floor: Time, es: seq<Event>, k: nat): Snapshot
    requires k <= |es|
  {
    Run(cfg, NewMerge(floor), es[..k]).snap
  }

  // No merge is late: each is newer than everything served before it.
  predicate InOrder(cfg: Config, floor: Time, es: seq<Event>) {
    forall k :: 0 <= k < |es| ==> ServedAt(cfg, floor, es, k).asOf < es[k].snap.fetchedAt
  }

  // Each read sees the merger after some number of merges, never fewer than the one before.
  predicate ReadsOf(cfg: Config, floor: Time, es: seq<Event>, at: seq<nat>, views: seq<Read>) {
    && |at| == |views|
    && (forall i :: 0 <= i < |at| ==> at[i] <= |es| && views[i].snap == ServedAt(cfg, floor, es, at[i]))
    && forall i, j :: 0 <= i < j < |at| ==> at[i] <= at[j]
  }

  // Without late merges the served time is strictly increasing.
  lemma {:induction false} TimeIdentifiesContent(cfg: Config, floor: Time, es: seq<Event>, i: nat, j: nat)
    requires ZERO <= floor && i < j <= |es| && InOrder(cfg, floor, es)
    ensures ServedAt(cfg, floor, es, i).asOf < ServedAt(cfg, floor, es, j).asOf
    decreases j
  {
    if i < j - 1 {
      TimeIdentifiesContent(cfg, floor, es, i, j - 1);
    }
    StepRaises(cfg, floor, es, j - 1);
  }

  lemma StepRaises(cfg: Config, floor: Time, es: seq<Event>, k: nat)
    requires ZERO <= floor && k < |es|
    ensures var before, t := ServedAt(cfg, floor, es, k).asOf, es[k].snap.fetchedAt;
            ServedAt(cfg, floor, es, k + 1).asOf == if before < t then t else before
  {
    AsOfIsMaximum(cfg, floor, es[..k]);
    assert es[..k + 1][..k] == es[..k];
    StepStampsMaximum(cfg, Run(cfg, NewMerge(floor), es[..k]), es[k]);
  }

  // The read time of a served snapshot is the time it is served under.
  lemma ReadTimeIsServedTime(cfg: Config, floor: Time, es: seq<Event>, k: nat)
    requires ZERO <= floor && k <= |es| && InOrder(cfg, floor, es)
    ensures ZERO <= ServedAt(cfg, floor, es, k).asOf == AsOfTime(ServedAt(cfg, floor, es, k))
  {
    AsOfIsMaximum(cfg, floor, es[..k]);
    if k > 0 {
      TimeIdentifiesContent(cfg, floor, es, 0, k);
      AsOfIsMaximum(cfg, floor, es[..0]);
    }
  }

  lemma ReadsHaveOneContent(cfg: Config, floor: Time, es: seq<Event>, at: seq<nat>, views: seq<Read>)
    requires ZERO <= floor && InOrder(cfg, floor, es) && ReadsOf(cfg, floor, es, at, views)
    ensures OneContentPerTime(views)
  {
    forall i | 0 <= i < |views|
      ensures ZERO <= AsOfTime(views[i].snap) == ServedAt(cfg, floor, es, at[i]).asOf
    {
      ReadTimeIsServedTime(cfg, floor, es, at[i]);
    }
    forall i, j | 0 <= i < j < |views|
      ensures AsOfTime(views[i].snap) <= AsOfTime(views[j].snap)
      ensures AsOfTime(views[i].snap) == AsOfTime(views[j].snap) ==> SameContent(views[i].snap, views[j].snap)
    {
      ReadTimeIsServedTime(cfg, floor, es, at[i]);
      ReadTimeIsServedTime(cfg, floor, es, at[j]);
      if at[i] < at[j] {
        TimeIdentifiesContent(cfg, floor, es, at[i], at[j]);
      }
    }
  }

  // End to end: with no late merge and trims that settle, every payload the cached reader
  // serves is complete and holds, field by field, the last usable reading.
  lemma CachedReaderIsExact(cfg: Config, floor: Time, es: seq<Event>, at: seq<nat>, views: seq<Read>, c: Setup)
    requires ZERO <= floor && InOrder(cfg, floor, es) && ReadsOf(cfg, floor, es, at, views)
    requires TrimsSettle(c, views) && views != []
    ensures var served := Serve(c, ReaderAfter(c, views[..|views| - 1]), views[|views| - 1]).1;
            && Some(served) == PayloadAfter(c, views) && Complete(served)
            && ChargeHeld(views, served.chargeState.value) && DriveHeld(views, served.driveState.value)
            && VehicleHeld(views, served.vehicleState.value)
  {
    ReadsHaveOneContent(cfg, floor, es, at, views);
    CachedIsFresh(c, views);
    HoldsLastKnown(c, views);
  }

  // A merge that is late leaves the served time where it was, so a reader that has seen that
  // time does not look again, whatever the merge changed.
  lemma LateMergeIsUnseen(cfg: Config, floor: Time, es: seq<Event>, k: nat, r: Reader)
    requires ZERO <= floor && k < |es|
    requires r.cached.Some? && r.cachedAsOf == ServedAt(cfg, floor, es, k).asOf && !IsZero(r.cachedAsOf)
    ensures Hit(r, ServedAt(cfg, floor, es, k + 1)) <==> es[k].snap.fetchedAt <= ServedAt(cfg, floor, es, k).asOf
  {
    StepRaises(cfg, floor, es, k);
    AsOfIsMaximum(cfg, floor, es[..k]);
  }

  // Such a merge can change what is served.
  lemma LatePollChangesContent(cfg: Config, st: State, t: Time)
    requires cfg.staleAfter <= 0 && ZERO < t && st.power == PowerOnline && st.rangeKm == 0
    ensures var newer := PollEvent(Snapshot(Some(st), None, t, ZERO, {}, ZERO), t);
            var late := PollEvent(Snapshot(Some(st.(rangeKm := 1)), None, t - 1, ZERO, {}, ZERO), t);
            var a, b := ServedAt(cfg, ZERO, [newer, late], 1), ServedAt(cfg, ZERO, [newer, late], 2);
            a.asOf == b.asOf == t && a.state != b.state
  {
    var newer := PollEvent(Snapshot(Some(st), None, t, ZERO, {}, ZERO), t);
    var late := PollEvent(Snapshot(Some(st.(rangeKm := 1)), None, t - 1, ZERO, {}, ZERO), t);
    var es := [newer, late];
    assert es[..0] == [] && es[..1] == [newer] && es[..2] == es && [newer][..0] == [] && es[..1][..0] == [];
    AsOfIsMaximum(cfg, ZERO, []);
    StepRaises(cfg, ZERO, es, 0);
    StepRaises(cfg, ZERO, es, 1);
    var m := Run(cfg, NewMerge(ZERO), [newer]);
    assert m == PollStep(cfg, NewMerge(ZERO), newer.snap, t);
    assert m.snap.state.value.rangeKm == 0;
    assert PollStep(cfg, m, late.snap, t).snap.state.value.rangeKm == 1;
  }
}
