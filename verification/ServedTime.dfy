/** The one emitted time: what a merger serves as AsOf over any history. */
module ServedTime {
  import opened Clock
  import opened Vehicle
  import opened MergeModel

  function Times(es: seq<Event>): seq<Time> {
    seq(|es|, i requires 0 <= i < |es| => es[i].snap.fetchedAt)
  }

  // The components of the served snapshot never run ahead of the time it is served under.
  predicate Stamped(s: Snapshot) {
    (IsZero(s.fetchedAt) || s.fetchedAt <= s.asOf) && (IsZero(s.streamFields) || s.streamFields <= s.asOf)
  }

  lemma LatestAppend(ts: seq<Time>, t: Time)
    ensures Latest(ts + [t]) == if After(t, Latest(ts)) then t else Latest(ts)
  {
    assert (ts + [t])[..|ts|] == ts;
  }

  lemma StepStampsMaximum(cfg: Config, m: Merge, e: Event)
    requires Stamped(m.snap) && ZERO <= m.snap.asOf
    ensures var after := Step(cfg, m, e).snap;
            && after.asOf == (if After(e.snap.fetchedAt, m.snap.asOf) then e.snap.fetchedAt else m.snap.asOf)
            && Stamped(after) && ZERO <= after.asOf
  {
    var out := if e.PollEvent? then PollOut(m, e.snap) else FrameOut(m.snap, e.snap, Gated(cfg, m, e.snap).0);
    var ts := [m.snap.asOf, out.fetchedAt, out.streamFields];
    var r := Latest(ts);
    assert ts[0] <= r && ts[1] <= r && ts[2] <= r;
    assert Step(cfg, m, e).snap.asOf == r;
  }

  lemma LatestOfFloor(floor: Time, ts: seq<Time>)
    requires ZERO <= floor && ts == []
    ensures Latest([floor] + ts) == floor
  {
    assert [floor] + ts == [floor] && [floor][..0] == [];
  }

  // The served AsOf is the maximum of the restart floor and every poll and frame time
  // merged so far, late ones included.
  lemma {:induction false} AsOfIsMaximum(cfg: Config, floor: Time, es: seq<Event>)
    requires ZERO <= floor
    ensures var s := Run(cfg, NewMerge(floor), es).snap;
            s.asOf == Latest([floor] + Times(es)) && Stamped(s)
  {
    if es == [] {
      LatestOfFloor(floor, Times(es));
    } else {
      AsOfIsMaximum(cfg, floor, Front(es));
      RunStampsMaximum(cfg, NewMerge(floor), es);
      LatestTimes(floor, es);
    }
  }

  lemma LatestTimes(floor: Time, es: seq<Event>)
    requires es != []
    ensures var earlier, t := Latest([floor] + Times(Front(es))), Last(es).snap.fetchedAt;
            Latest([floor] + Times(es)) == if After(t, earlier) then t else earlier
  {
    LatestAppend([floor] + Times(Front(es)), Last(es).snap.fetchedAt);
    assert [floor] + Times(es) == [floor] + Times(Front(es)) + [Last(es).snap.fetchedAt];
  }

  lemma RunStampsMaximum(cfg: Config, m: Merge, es: seq<Event>)
    requires es != []
    requires Stamped(Run(cfg, m, Front(es)).snap) && ZERO <= Run(cfg, m, Front(es)).snap.asOf
    ensures var served, t := Run(cfg, m, Front(es)).snap.asOf, Last(es).snap.fetchedAt;
            Run(cfg, m, es).snap.asOf == if After(t, served) then t else served
    ensures Stamped(Run(cfg, m, es).snap)
  {
    StepStampsMaximum(cfg, Run(cfg, m, Front(es)), Last(es));
  }

  // Served time never moves backwards along a run.
  lemma AsOfNeverRegresses(cfg: Config, floor: Time, es: seq<Event>, i: nat, j: nat)
    requires ZERO <= floor && i <= j <= |es|
    ensures Run(cfg, NewMerge(floor), es[..i]).snap.asOf <= Run(cfg, NewMerge(floor), es[..j]).snap.asOf
  {
    AsOfIsMaximum(cfg, floor, es[..i]);
    AsOfIsMaximum(cfg, floor, es[..j]);
    var earlier, later := [floor] + Times(es[..i]), [floor] + Times(es[..j]);
    assert forall k :: 0 <= k < |earlier| ==> earlier[k] == later[k];
    assert Latest(earlier) == ZERO || exists k :: 0 <= k < |earlier| && earlier[k] == Latest(earlier);
  }
}
