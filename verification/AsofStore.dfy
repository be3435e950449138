/** The persisted high-water marks of served time, with the file they are kept in. */
module AsofStore {
  import opened Clock
  import opened Vehicle

  const ASOF_FLUSH_INTERVAL := 10 * SECOND

  type Marks = map<string, Time>

  // The store together with its file. A write replaces the whole file or leaves it alone.
  datatype Store = Store(persistent: bool, marks: Marks, lastFlushed: Time, file: Option<Marks>)

  function Mark(marks: Marks, id: string): Time {
    if id in marks then marks[id] else ZERO
  }

  function FileMark(file: Option<Marks>, id: string): Time {
    if file.None? then ZERO else Mark(file.value, id)
  }

  // Flush time moves even when the write fails, so a failing disk stays throttled.
  function Persisted(s: Store, now: Time, ok: bool): Store {
    if !s.persistent then s
    else s.(lastFlushed := now, file := if ok then Some(s.marks) else s.file)
  }

  function Advanced(s: Store, id: string, at: Time, now: Time, ok: bool): Store {
    if !After(at, Mark(s.marks, id)) then s
    else
      var moved := s.(marks := s.marks[id := at]);
      if Sub(now, s.lastFlushed) >= ASOF_FLUSH_INTERVAL then Persisted(moved, now, ok) else moved
  }

  // A fresh process: only the file survives.
  function Loaded(persistent: bool, file: Option<Marks>): Store {
    Store(persistent, if persistent && file.Some? then file.value else map[], ZERO, file)
  }

  class Disk {
    var content: Option<Marks>

    constructor (content: Option<Marks>)
      ensures this.content == content
    {
      this.content := content;
    }
  }

  class MarkStore {
    const persistent: bool
    const disk: Disk
    var byID: Marks
    var lastFlushed: Time

    ghost function Value(): Store
      reads this, disk
    {
      Store(persistent, byID, lastFlushed, disk.content)
    }

    constructor (persistent: bool, disk: Disk)
      ensures this.disk == disk && this.persistent == persistent
      ensures Value() == Loaded(persistent, disk.content)
    {
      this.persistent, this.disk, lastFlushed := persistent, disk, ZERO;
      byID := map[];
      new;
      if persistent && disk.content.Some? {
        byID := disk.content.value;
      }
    }

    method Get(id: string) returns (t: Time)
      ensures t == Mark(byID, id)
    {
      t := if id in byID then byID[id] else ZERO;
    }

    method Advance(id: string, at: Time, now: Time, ok: bool)
      modifies this, disk
      ensures Value() == Advanced(old(Value()), id, at, now, ok)
    {
      var mark := Get(id);
      if !After(at, mark) {
        return;
      }
      byID := byID[id := at];
      if Sub(now, lastFlushed) >= ASOF_FLUSH_INTERVAL {
        Persist(now, ok);
      }
    }

    method Flush(now: Time, ok: bool)
      modifies this, disk
      ensures Value() == Persisted(old(Value()), now, ok)
    {
      Persist(now, ok);
    }

    method Persist(now: Time, ok: bool)
      modifies this, disk
      ensures Value() == Persisted(old(Value()), now, ok)
    {
      if !persistent {
        return;
      }
      lastFlushed := now;
      if ok {
        disk.content := Some(byID);
      }
    }
  }

  // ---------- Steps, restarts included ----------

  datatype StoreEvent =
    | Advance(id: string, at: Time, now: Time, ok: bool)
    | Flush(now: Time, ok: bool)
    | Restart

  function StoreStep(s: Store, e: StoreEvent): Store {
    match e
    case Advance(id, at, now, ok) => Advanced(s, id, at, now, ok)
    case Flush(now, ok) => Persisted(s, now, ok)
    case Restart => Loaded(s.persistent, s.file)
  }

  // The file never runs ahead of the marks in memory.
  ghost predicate FileBehind(s: Store) {
    forall id :: FileMark(s.file, id) <= Mark(s.marks, id)
  }

  // No advance, flush, failed write or restart takes any recorded mark back.
  lemma StepRaisesFile(s: Store, e: StoreEvent)
    requires s.persistent && FileBehind(s)
    ensures var s' := StoreStep(s, e);
            s'.persistent && FileBehind(s') && forall id :: FileMark(s.file, id) <= FileMark(s'.file, id)
  {
    assert forall id :: FileMark(s.file, id) <= Mark(s.marks, id);
  }

  // A completed write records every mark as it stands.
  lemma CompletedWriteRecordsAll(s: Store, now: Time, id: string)
    requires s.persistent
    ensures FileMark(StoreStep(s, Flush(now, true)).file, id) == Mark(s.marks, id)
    ensures Mark(Loaded(true, StoreStep(s, Flush(now, true)).file).marks, id) == Mark(s.marks, id)
  {
  }

  // ---------- How soon a mark is written ----------

  function StoreRun(s: Store, es: seq<StoreEvent>): Store {
    if es == [] then s else StoreStep(StoreRun(s, es[..|es| - 1]), es[|es| - 1])
  }

  function ClockOf(e: StoreEvent): Time
    requires !e.Restart?
  {
    e.now
  }

  // The life of one process whose writes all complete, on a clock that never goes back and
  // reads a time at least ten seconds past the zero one.
  predicate OneLife(es: seq<StoreEvent>) {
    && (forall i :: 0 <= i < |es| ==>
          !es[i].Restart? && es[i].ok && ClockOf(es[i]) >= -62_135_596_800_000_000_000 + 10_000_000_000)
    && forall i, j :: 0 <= i < j < |es| ==> ClockOf(es[i]) <= ClockOf(es[j])
  }

  predicate Raises(s: Store, e: StoreEvent) {
    e.Advance? && e.at > Mark(s.marks, e.id)
  }

  // Seen from outside: after this event the file holds all marks, and it is a flush or a raise.
  predicate Writes(s: Store, e: StoreEvent) {
    (e.Flush? || Raises(s, e)) && StoreStep(s, e).file == Some(StoreStep(s, e).marks)
  }

  predicate WritesAt(s: Store, es: seq<StoreEvent>, i: nat)
    requires i < |es|
  {
    Writes(StoreRun(s, es[..i]), es[i])
  }

  // When the file was last written in this life, the zero time if not yet.
  function LastWrite(s: Store, es: seq<StoreEvent>): Time {
    if es == [] then -62_135_596_800_000_000_000
    else if !es[|es| - 1].Restart? && WritesAt(s, es, |es| - 1) then ClockOf(es[|es| - 1])
    else LastWrite(s, es[..|es| - 1])
  }

  ghost predicate Booted(s: Store) {
    s.persistent && s.lastFlushed == ZERO && FileBehind(s)
  }

  lemma {:induction false} FlushTimeIsLastWrite(s: Store, es: seq<StoreEvent>)
    requires Booted(s) && OneLife(es)
    ensures var after := StoreRun(s, es);
            && after.persistent && after.lastFlushed == LastWrite(s, es) && FileBehind(after)
            && (LastWrite(s, es) == ZERO || exists i :: 0 <= i < |es| && LastWrite(s, es) == ClockOf(es[i]))
  {
    if es != [] {
      var front, e := es[..|es| - 1], es[|es| - 1];
      assert forall i :: 0 <= i < |front| ==> front[i] == es[i];
      FlushTimeIsLastWrite(s, front);
      StepRaisesFile(StoreRun(s, front), e);
      WritesOrWaits(StoreRun(s, front), e);
      if !WritesAt(s, es, |es| - 1) && LastWrite(s, front) != ZERO {
        var i :| 0 <= i < |front| && LastWrite(s, front) == ClockOf(front[i]);
        assert es[i] == front[i];
      }
    }
  }

  // A raise not written at once leaves the file without it.
  lemma WritesOrWaits(s: Store, e: StoreEvent)
    requires s.persistent && FileBehind(s) && !e.Restart? && e.ok
    ensures Writes(s, e) ==> StoreStep(s, e).lastFlushed == ClockOf(e)
    ensures !Writes(s, e) ==> StoreStep(s, e).lastFlushed == s.lastFlushed
    ensures Raises(s, e) ==> (Writes(s, e) <==> Sub(ClockOf(e), s.lastFlushed) >= ASOF_FLUSH_INTERVAL)
    ensures e.Flush? ==> Writes(s, e)
  {
    if Raises(s, e) {
      var after := StoreStep(s, e);
      assert FileMark(s.file, e.id) <= Mark(s.marks, e.id) < e.at == Mark(after.marks, e.id);
      if after.file == s.file {
        assert FileMark(after.file, e.id) < Mark(after.marks, e.id);
      }
    }
  }

  // Whenever an advance raises a mark, the file has it at once exactly when the last write of
  // this life was ten seconds ago or more, or there was none. So a mark is out of the file only
  // within ten seconds of a write, and writes made by advances are ten seconds apart.
  lemma RaisedMarkIsWritten(s: Store, es: seq<StoreEvent>, k: nat)
    requires Booted(s) && OneLife(es) && k < |es| && Raises(StoreRun(s, es[..k]), es[k])
    ensures WritesAt(s, es, k) <==> es[k].now - LastWrite(s, es[..k]) >= 10_000_000_000
    ensures WritesAt(s, es, k) <==> FileMark(StoreRun(s, es[..k + 1]).file, es[k].id) == es[k].at
  {
    var front := es[..k];
    assert es[..k + 1][..k] == front && es[..k + 1][k] == es[k];
    assert forall i :: 0 <= i < |front| ==> front[i] == es[i];
    FlushTimeIsLastWrite(s, front);
    var before, after := StoreRun(s, front), StoreRun(s, es[..k + 1]);
    WritesOrWaits(before, es[k]);
    assert FileMark(before.file, es[k].id) <= Mark(before.marks, es[k].id) < es[k].at == Mark(after.marks, es[k].id);
    if LastWrite(s, front) != ZERO {
      var i :| 0 <= i < |front| && LastWrite(s, front) == ClockOf(front[i]);
      assert ClockOf(es[i]) <= ClockOf(es[k]);
    }
    assert es[k].now - LastWrite(s, front) >= 0;
  }
}
