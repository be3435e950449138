/** Served time of every vehicle across crashes and restarts: the mergers, the shared mark
    store and its file as one system. */
module Restarts {
  import opened Clock
  import opened Vehicle
  import opened MergeModel
  import opened AsofStore

  datatype Cache = Cache(mergers: map<string, Merge>, store: Store)

  datatype CacheEvent =
    | Deliver(id: string, event: Event, ok: bool)
    | FlushMarks(now: Time, ok: bool)
    | Crash

  // A process starting over the file it finds: every merger resumes from its own mark.
  function Boot(ids: set<string>, file: Option<Marks>): Cache {
    var store := Loaded(true, file);
    Cache(map id | id in ids :: NewMerge(Mark(store.marks, id)), store)
  }

  function CacheStep(cfg: Config, c: Cache, e: CacheEvent): Cache {
    match e
    case Deliver(id, event, ok) =>
      if id !in c.mergers then c
      else
        var m := Step(cfg, c.mergers[id], event);
        Cache(c.mergers[id := m], Advanced(c.store, id, m.snap.asOf, event.now, ok))
    case FlushMarks(now, ok) => c.(store := Persisted(c.store, now, ok))
    case Crash => Boot(c.mergers.Keys, c.store.file)
  }

  function CacheRun(cfg: Config, c: Cache, es: seq<CacheEvent>): Cache {
    if es == [] then c else CacheStep(cfg, CacheRun(cfg, c, Front(es)), Last(es))
  }

  // The store holds exactly the time each vehicle is served under, and its file lags it.
  ghost predicate Consistent(c: Cache) {
    && c.store.persistent
    && FileBehind(c.store)
    && forall id :: id in c.mergers ==> Mark(c.store.marks, id) == c.mergers[id].snap.asOf
  }

  lemma ServedTimeGrows(cfg: Config, m: Merge, e: Event)
    ensures m.snap.asOf <= Step(cfg, m, e).snap.asOf
  {
    var out := if e.PollEvent? then PollOut(m, e.snap) else FrameOut(m.snap, e.snap, Gated(cfg, m, e.snap).0);
    var ts := [m.snap.asOf, out.fetchedAt, out.streamFields];
    assert ts[0] <= Latest(ts);
  }

  // Serving one vehicle under a later time and advancing its mark keeps the two in step.
  lemma AdvanceKeepsConsistent(c: Cache, id: string, m: Merge, now: Time, ok: bool)
    requires Consistent(c) && id in c.mergers && c.mergers[id].snap.asOf <= m.snap.asOf
    ensures var c' := Cache(c.mergers[id := m], Advanced(c.store, id, m.snap.asOf, now, ok));
            Consistent(c') && (forall k :: FileMark(c.store.file, k) <= FileMark(c'.store.file, k))
  {
    StepRaisesFile(c.store, Advance(id, m.snap.asOf, now, ok));
  }

  lemma StepKeepsConsistent(cfg: Config, c: Cache, e: CacheEvent)
    requires Consistent(c)
    ensures var c' := CacheStep(cfg, c, e);
            && Consistent(c')
            && c'.mergers.Keys == c.mergers.Keys
            && (forall id :: FileMark(c.store.file, id) <= FileMark(c'.store.file, id))
  {
    match e
    case Deliver(id, event, ok) =>
      if id in c.mergers {
        ServedTimeGrows(cfg, c.mergers[id], event);
        AdvanceKeepsConsistent(c, id, Step(cfg, c.mergers[id], event), event.now, ok);
      }
    case FlushMarks(now, ok) => StepRaisesFile(c.store, Flush(now, ok));
    case Crash => StepRaisesFile(c.store, Restart);
  }

  lemma {:induction false} RunKeepsConsistent(cfg: Config, c: Cache, es: seq<CacheEvent>)
    requires Consistent(c)
    ensures var c' := CacheRun(cfg, c, es);
            && Consistent(c')
            && c'.mergers.Keys == c.mergers.Keys
            && (forall id :: FileMark(c.store.file, id) <= FileMark(c'.store.file, id))
  {
    if es != [] {
      RunKeepsConsistent(cfg, c, Front(es));
      StepKeepsConsistent(cfg, CacheRun(cfg, c, Front(es)), Last(es));
    }
  }

  // Over any deliveries, flushes, failed writes and crashes, the store's mark of every
  // vehicle is the time it is served under.
  lemma MarksEqualServedTime(cfg: Config, ids: set<string>, file: Option<Marks>, es: seq<CacheEvent>, id: string)
    requires id in ids
    ensures var c := CacheRun(cfg, Boot(ids, file), es);
            id in c.mergers && Mark(c.store.marks, id) == c.mergers[id].snap.asOf
  {
    RunKeepsConsistent(cfg, Boot(ids, file), es);
    assert id in Boot(ids, file).mergers.Keys;
  }

  // However often the process crashes, no vehicle is served under a time earlier than the
  // last completed write recorded for it.
  lemma ServedNeverBelowLastWrite(cfg: Config, ids: set<string>, file: Option<Marks>,
                                  before: seq<CacheEvent>, after: seq<CacheEvent>, id: string)
    requires id in ids
    ensures var written := CacheRun(cfg, Boot(ids, file), before);
            var c := CacheRun(cfg, written, after);
            id in c.mergers && FileMark(written.store.file, id) <= c.mergers[id].snap.asOf
  {
    var written := CacheRun(cfg, Boot(ids, file), before);
    RunKeepsConsistent(cfg, Boot(ids, file), before);
    RunKeepsConsistent(cfg, written, after);
    assert id in Boot(ids, file).mergers.Keys;
    var c := CacheRun(cfg, written, after);
    assert FileMark(c.store.file, id) <= Mark(c.store.marks, id);
  }

  // ---------- How much a crash can cost ----------

  // What the store is asked to do by one event, and along a run.
  function Asked(cfg: Config, c: Cache, e: CacheEvent): Option<StoreEvent> {
    match e
    case Deliver(id, event, ok) =>
      if id in c.mergers then Some(Advance(id, Step(cfg, c.mergers[id], event).snap.asOf, event.now, ok)) else None
    case FlushMarks(now, ok) => Some(Flush(now, ok))
    case Crash => Some(Restart)
  }

  function StoreEvents(cfg: Config, c: Cache, es: seq<CacheEvent>): seq<StoreEvent> {
    if es == [] then []
    else
      var asked := Asked(cfg, CacheRun(cfg, c, Front(es)), Last(es));
      StoreEvents(cfg, c, Front(es)) + if asked.Some? then [asked.value] else []
  }

  lemma OneAsked(cfg: Config, c: Cache, e: CacheEvent)
    requires c.store.persistent
    ensures var asked := Asked(cfg, c, e);
            CacheStep(cfg, c, e).store == if asked.Some? then StoreStep(c.store, asked.value) else c.store
  {
  }

  lemma {:induction false} StoreFollows(cfg: Config, c: Cache, es: seq<CacheEvent>)
    requires Consistent(c)
    ensures CacheRun(cfg, c, es).store == StoreRun(c.store, StoreEvents(cfg, c, es))
  {
    if es != [] {
      StoreFollows(cfg, c, Front(es));
      RunKeepsConsistent(cfg, c, Front(es));
      OneAsked(cfg, CacheRun(cfg, c, Front(es)), Last(es));
      StoreRunOn(c.store, StoreEvents(cfg, c, Front(es)), Asked(cfg, CacheRun(cfg, c, Front(es)), Last(es)));
    }
  }

  lemma StoreRunOn(s: Store, es: seq<StoreEvent>, asked: Option<StoreEvent>)
    ensures StoreRun(s, es + if asked.Some? then [asked.value] else [])
         == if asked.Some? then StoreStep(StoreRun(s, es), asked.value) else StoreRun(s, es)
  {
    if asked.Some? {
      assert (es + [asked.value])[..|es|] == es;
    } else {
      assert es + [] == es;
    }
  }

  // In a life whose writes complete, a delivery that raises a vehicle's served time ten seconds
  // or more after the last write is never lost: whatever follows, crashes included, the vehicle
  // is served under that time or a later one.
  lemma LateRaiseSurvivesCrashes(cfg: Config, ids: set<string>, file: Option<Marks>, life: seq<CacheEvent>,
                                 id: string, event: Event, after: seq<CacheEvent>)
    requires id in ids
    requires OneLife(StoreEvents(cfg, Boot(ids, file), life + [Deliver(id, event, true)]))
    ensures var boot := Boot(ids, file);
            var before, raised := CacheRun(cfg, boot, life), CacheRun(cfg, boot, life + [Deliver(id, event, true)]);
            var lastWrite := LastWrite(boot.store, StoreEvents(cfg, boot, life));
            var c := CacheRun(cfg, raised, after);
            && id in before.mergers && id in raised.mergers && id in c.mergers
            && (before.mergers[id].snap.asOf < raised.mergers[id].snap.asOf && event.now - lastWrite >= 10_000_000_000 ==>
                  raised.mergers[id].snap.asOf <= c.mergers[id].snap.asOf)
  {
    var boot := Boot(ids, file);
    var es := life + [Deliver(id, event, true)];
    assert Front(es) == life && Last(es) == Deliver(id, event, true);
    RunKeepsConsistent(cfg, boot, life);
    assert id in boot.mergers.Keys;
    ServedNeverBelowLastWrite(cfg, ids, file, es, after, id);
    StoreFollows(cfg, boot, life);
    StoreFollows(cfg, boot, es);
    RunKeepsConsistent(cfg, boot, es);
    var before, raised := CacheRun(cfg, boot, life), CacheRun(cfg, boot, es);
    var se := StoreEvents(cfg, boot, es);
    var k := |se| - 1;
    assert se == StoreEvents(cfg, boot, life) + [se[k]] && se[..k] == StoreEvents(cfg, boot, life) && se[..k + 1] == se;
    if before.mergers[id].snap.asOf < raised.mergers[id].snap.asOf {
      RaisedMarkIsWritten(boot.store, se, k);
    }
  }
}
