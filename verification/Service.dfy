/** The cache service: one merger per served vehicle, all sharing the mark store and the
    counters, with writes routed by vehicle id. */
module Service {
  import opened Clock
  import opened Vehicle
  import opened Integrity
  import opened Trigger
  import opened MergeModel
  import opened AsofStore
  import opened SnapshotHeap
  import opened Merger

  // Every merger serves under its own id through the shared parts, and no two share an object
  // of their own.
  ghost predicate WellWired(mergers: map<string, Merger>, asof: MarkStore, integrity: IntegrityCounters,
                            session: SessionCounters)
  {
    && (forall id :: id in mergers ==>
          && mergers[id].id == id && mergers[id].onAsOf == asof
          && mergers[id].integrity == integrity && mergers[id].session == session)
    && forall a, b :: a in mergers && b in mergers && a != b ==>
         mergers[a] != mergers[b] && mergers[a].drive != mergers[b].drive && mergers[a].wake != mergers[b].wake
  }

  // The set of vehicles is fixed when the service is built.
  class Service {
    const staleAfter: Duration
    const asof: MarkStore
    const integrity: IntegrityCounters
    const session: SessionCounters
    const mergers: map<string, Merger>

    ghost predicate Valid() {
      WellWired(mergers, asof, integrity, session)
    }

    // One merger per identity, each serving an empty snapshot under its persisted mark.
    constructor (ids: seq<string>, staleAfter: Duration, asof: MarkStore, metric: Metric)
      ensures Valid() && this.staleAfter == staleAfter && this.asof == asof
      ensures forall id :: id in mergers <==> id in ids
      ensures forall id :: id in mergers ==>
                && mergers[id].id == id && mergers[id].onAsOf == asof
                && mergers[id].integrity == integrity && mergers[id].session == session
                && mergers[id].Wiring(staleAfter) == Config(staleAfter, true, metric)
      ensures forall a, b :: a in mergers && b in mergers && a != b ==> mergers[a] != mergers[b]
      ensures forall id :: id in mergers ==>
                mergers[id].snap == SnapRef(null, null, ZERO, ZERO, {}, Mark(asof.byID, id))
    {
      var counters := new IntegrityCounters();
      var sessions := new SessionCounters();
      var ms: map<string, Merger> := map[];
      for i := 0 to |ids|
        invariant WellWired(ms, asof, counters, sessions)
        invariant forall id :: id in ms ==> ms[id].metric == metric
        invariant forall id :: id in ms <==> id in ids[..i]
        invariant forall id :: id in ms ==> ms[id].snap == SnapRef(null, null, ZERO, ZERO, {}, Mark(asof.byID, id))
      {
        var floor := asof.Get(ids[i]);
        var m := new Merger(ids[i], floor, asof, counters, sessions, metric);
        ms := ms[ids[i] := m];
      }
      this.staleAfter, this.asof, integrity, session, mergers := staleAfter, asof, counters, sessions, ms;
    }

    // A poll reaches the merger of its vehicle alone; an unknown id changes nothing.
    method MergePoll(id: string, poll: SnapRef, now: Time, ok: bool)
      requires Valid()
      modifies if id in mergers then {mergers[id]} + mergers[id].StoreFrame() else {}
      ensures id in mergers ==>
                mergers[id].Model()
                == PollStep(mergers[id].Wiring(staleAfter), old(mergers[id].Model()), old(ValueOf(poll)), now)
    {
      if id !in mergers {
        return;
      }
      var _, _ := mergers[id].MergePoll(poll, staleAfter, now, ok);
    }

    // Keepalives, stateless frames and frames for unknown vehicles never reach a merger; any
    // other frame reaches its vehicle's alone and may ask for an immediate poll.
    method Put(id: string, frame: SnapRef, now: Time, ok: bool) returns (trigger: bool, ghost o: Outcome)
      requires Valid()
      modifies if id in mergers && frame.state != null && frame.streamPresent != {} then
                 {mergers[id], mergers[id].drive, mergers[id].wake, integrity, session} + mergers[id].StoreFrame()
               else {}
      ensures id in mergers && frame.state != null && frame.streamPresent != {} ==>
                && (mergers[id].Model(), o)
                   == FrameStep(mergers[id].Wiring(staleAfter), old(mergers[id].Model()), old(ValueOf(frame)), now)
                && trigger == (o.drive || o.endCharge || o.wake)
      ensures id !in mergers || frame.state == null || frame.streamPresent == {} ==> !trigger
    {
      if id !in mergers || frame.state == null || frame.streamPresent == {} {
        trigger, o := false, Outcome([], false, false, false, false);
      } else {
        var _, poll, _, outcome := mergers[id].MergeStreamDetect(frame, staleAfter, now, ok);
        trigger, o := poll, outcome;
      }
    }
  }
}
