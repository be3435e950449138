/** Stable positive ids for vehicle GUIDs: a hash, a linear probe that wraps at the end of
    the 64-bit range, two maps and a file. */
module IdMap {
  import opened Vehicle
  import opened Words

  const MAX_ID := 0x7fff_ffff_ffff_ffff

  type Id = i: int | 1 <= i <= MAX_ID witness 1

  // A word that wraps past its end is not positive, and probing restarts at one.
  function Following(id: Id): (next: Id)
    ensures id < MAX_ID ==> next == id + 1
    ensures id == MAX_ID ==> next == 1
  {
    if Wrap64(id + 1) <= 0 then 1 else Wrap64(id + 1)
  }

  // Probing steps from one id to another.
  function Steps(from: Id, to: Id): nat {
    if from <= to then to - from else to - from + MAX_ID
  }

  // ---------- A free id always turns up ----------

  function Below(n: nat): (s: set<int>)
    ensures |s| == n && forall i :: i in s <==> 1 <= i <= n
  {
    if n == 0 then {} else Below(n - 1) + {n}
  }

  lemma SubsetIsSmaller(a: set<int>, b: set<int>)
    requires a <= b
    ensures |a| <= |b|
  {
    assert b == a + (b - a);
  }

  // Fewer ids taken than there are leaves one free, whatever the keys are.
  lemma SomeIdIsFree(taken: set<int>) returns (free: Id)
    requires |taken| < MAX_ID
    ensures free !in taken
  {
    if forall i :: 1 <= i <= MAX_ID ==> i in taken {
      assert Below(MAX_ID) <= taken;
      SubsetIsSmaller(Below(MAX_ID), taken);
      assert false;
    }
    free :| free !in taken;
  }

  // The first id at or after the hash that nobody has, walking with the wrap.
  predicate FirstFree(taken: set<int>, from: Id, id: Id) {
    && id !in taken
    && forall other: Id :: Steps(from, other) < Steps(from, id) ==> other in taken
  }

  lemma FirstFreeIsUnique(taken: set<int>, from: Id, a: Id, b: Id)
    requires FirstFree(taken, from, a) && FirstFree(taken, from, b)
    ensures a == b
  {
    assert Steps(from, a) < Steps(from, b) ==> a in taken;
    assert Steps(from, b) < Steps(from, a) ==> b in taken;
  }

  // ---------- The two maps ----------

  // Each map is the other read backwards, over positive ids.
  predicate Inverse(byKey: map<string, int>, byID: map<int, string>) {
    && (forall guid <- byKey :: 1 <= byKey[guid] <= MAX_ID && byKey[guid] in byID && byID[byKey[guid]] == guid)
    && forall id <- byID :: byID[id] in byKey && byKey[byID[id]] == id
  }

  predicate Injective(stored: map<string, int>) {
    forall g <- stored, h <- stored :: stored[g] == stored[h] ==> g == h
  }

  predicate Positive(stored: map<string, int>) {
    forall g <- stored :: 1 <= stored[g] <= MAX_ID
  }

  // What always holds, even of a file with repeated ids: a reverse entry is never wrong and
  // no id in use lacks one.
  predicate Covered(byKey: map<string, int>, byID: map<int, string>) {
    && (forall guid <- byKey :: byKey[guid] in byID)
    && forall id <- byID :: byID[id] in byKey && byKey[byID[id]] == id
  }

  lemma InverseExactly(byKey: map<string, int>, byID: map<int, string>)
    requires Covered(byKey, byID)
    ensures Inverse(byKey, byID) <==> Injective(byKey) && Positive(byKey)
  {
    if Injective(byKey) && Positive(byKey) {
      forall guid <- byKey
        ensures byID[byKey[guid]] == guid
      {
        var back := byID[byKey[guid]];
        assert byKey[back] == byKey[guid];
      }
    }
  }

  // The outcome of one lookup: the id to hand out and the forward map after it.
  predicate Assigned(hash: string -> Id, byKey: map<string, int>, guid: string, id: int,
                     after: map<string, int>)
  {
    if guid in byKey then id == byKey[guid] && after == byKey
    else 1 <= id <= MAX_ID && FirstFree(byKey.Values, hash(guid), id) && after == byKey[guid := id]
  }

  // The file; a write that fails part-way leaves it broken.
  datatype File = Absent | Holding(stored: map<string, int>) | Broken

  datatype Write = Done | Refused | Torn

  class Map {
    const hash: string -> Id
    const persistent: bool
    var byKey: map<string, int>
    var byID: map<int, string>
    var disk: File

    ghost predicate Valid()
      reads this
    {
      Covered(byKey, byID)
    }

    constructor Empty(hash: string -> Id, persistent: bool, file: File)
      ensures this.hash == hash && this.persistent == persistent && disk == file
      ensures byKey == map[] && byID == map[]
    {
      this.hash, this.persistent, disk := hash, persistent, file;
      byKey, byID := map[], map[];
    }

    // Loads what the file holds; a missing file starts empty, a broken one is an error.
    static method New(hash: string -> Id, persistent: bool, file: File) returns (m: Option<Map>)
      ensures m.None? <==> persistent && file.Broken?
      ensures m.Some? ==>
                && fresh(m.value) && m.value.Valid() && m.value.hash == hash && m.value.persistent == persistent
                && m.value.disk == file
                && m.value.byKey == if persistent && file.Holding? then file.stored else map[]
    {
      var loaded := new Map.Empty(hash, persistent, file);
      if persistent {
        if file.Broken? {
          return None;
        }
        if file.Holding? {
          loaded.Load(file.stored);
        }
      }
      return Some(loaded);
    }

    // The file's entries in whatever order they are listed.
    method Load(stored: map<string, int>)
      requires byKey == map[] && byID == map[]
      modifies this`byKey, this`byID
      ensures Valid() && byKey == stored
    {
      var left := stored.Keys;
      while left != {}
        invariant left <= stored.Keys && Valid()
        invariant byKey == map g | g in stored.Keys - left :: stored[g]
      {
        var guid :| guid in left;
        left := left - {guid};
        byKey := byKey[guid := stored[guid]];
        byID := byID[stored[guid] := guid];
      }
    }

    // The id of a GUID, assigned on first use. A failed write is reported and still leaves it assigned.
    method ID(guid: string, write: Write) returns (id: Option<int>)
      requires Valid() && |byKey| < MAX_ID
      modifies this`byKey, this`byID, this`disk
      ensures Valid()
      ensures guid in byKey && Assigned(hash, old(byKey), guid, byKey[guid], byKey)
      ensures id == if guid in old(byKey) || !persistent || write.Done? then Some(byKey[guid]) else None
      ensures guid in old(byKey) || !persistent || write.Refused? ==> disk == old(disk)
      ensures guid !in old(byKey) && persistent && write.Done? ==> disk == Holding(byKey)
      ensures guid !in old(byKey) && persistent && write.Torn? ==> disk == Broken
    {
      if guid in byKey {
        return Some(byKey[guid]);
      }
      var probe := Probe(guid);
      byKey := byKey[guid := probe];
      byID := byID[probe := guid];
      var ok := Persist(write);
      return if ok then Some(probe) else None;
    }

    // The probing loop. Each step comes nearer to a free id, so it ends.
    method Probe(guid: string) returns (id: Id)
      requires Valid() && guid !in byKey && |byKey| < MAX_ID
      ensures FirstFree(byKey.Values, hash(guid), id) && id !in byID
    {
      var start := hash(guid);
      TakenAreValues(byKey, byID);
      ghost var free := FreeId(byKey);
      id := start;
      while id in byID && byID[id] != guid
        invariant forall other: Id :: Steps(start, other) < Steps(start, id) ==> other in byID
        invariant Steps(start, id) + Steps(id, free) == Steps(start, free)
        decreases Steps(id, free)
      {
        var next := Wrap64(id + 1);
        id := if next <= 0 then 1 else next;
      }
    }

    method Persist(write: Write) returns (ok: bool)
      modifies this`disk
      ensures ok == (!persistent || write.Done?)
      ensures !persistent || write.Refused? ==> disk == old(disk)
      ensures persistent && write.Done? ==> disk == Holding(byKey)
      ensures persistent && write.Torn? ==> disk == Broken
    {
      if !persistent {
        return true;
      }
      match write {
        case Done => disk := Holding(byKey);
        case Torn => disk := Broken;
        case Refused =>
      }
      return write.Done?;
    }

    method GUID(id: int) returns (guid: Option<string>)
      requires Valid()
      ensures guid.Some? ==> guid.value in byKey && byKey[guid.value] == id
      ensures guid.None? ==> id !in byKey.Values
    {
      return if id in byID then Some(byID[id]) else None;
    }
  }

  lemma TakenAreValues(byKey: map<string, int>, byID: map<int, string>)
    requires Covered(byKey, byID)
    ensures byID.Keys == byKey.Values
  {
    forall id <- byID
      ensures id in byKey.Values
    {
      assert byKey[byID[id]] == id;
    }
  }

  lemma {:induction false} ValuesAreFewer(m: map<string, int>)
    ensures |m.Values| <= |m|
  {
    if m.Keys != {} {
      var k :| k in m;
      var rest := m - {k};
      ValuesAreFewer(rest);
      assert m.Values == rest.Values + {m[k]} by {
        forall v <- m.Values
          ensures v in rest.Values + {m[k]}
        {
          var g :| g in m && m[g] == v;
          assert g != k ==> g in rest && rest[g] == v;
        }
      }
      assert rest.Keys == m.Keys - {k};
    } else {
      assert m.Values == {};
    }
  }

  lemma FreeId(byKey: map<string, int>) returns (free: Id)
    requires |byKey| < MAX_ID
    ensures free !in byKey.Values
  {
    ValuesAreFewer(byKey);
    free := SomeIdIsFree(byKey.Values);
  }

  // ---------- Over any sequence of lookups ----------

  // The forward maps a run of lookups may pass through, each following from the one before.
  predicate Lookups(hash: string -> Id, maps: seq<map<string, int>>, guids: seq<string>) {
    && |maps| == |guids| + 1
    && forall i :: 0 <= i < |guids| ==>
         && guids[i] in maps[i + 1]
         && Assigned(hash, maps[i], guids[i], maps[i + 1][guids[i]], maps[i + 1])
  }

  // Ids never change once given, and distinct GUIDs keep distinct positive ids.
  lemma {:induction false} IdsAreForGood(hash: string -> Id, maps: seq<map<string, int>>, guids: seq<string>, i: nat)
    requires Lookups(hash, maps, guids) && i < |maps|
    ensures forall g <- maps[i] :: g in maps[|guids|] && maps[|guids|][g] == maps[i][g]
    ensures Injective(maps[i]) && Positive(maps[i]) ==> Injective(maps[|guids|]) && Positive(maps[|guids|])
    decreases |maps| - i
  {
    if i < |guids| {
      IdsAreForGood(hash, maps, guids, i + 1);
      AssignKeepsInjective(hash, maps[i], guids[i], maps[i + 1]);
    }
  }

  lemma AssignKeepsInjective(hash: string -> Id, m: map<string, int>, guid: string, after: map<string, int>)
    requires guid in after && Assigned(hash, m, guid, after[guid], after)
    ensures Injective(m) && Positive(m) ==> Injective(after) && Positive(after)
  {
    if Injective(m) && Positive(m) {
      forall g <- after, h <- after | after[g] == after[h]
        ensures g == h
      {
        assert g in m ==> m[g] in m.Values;
        assert h in m ==> m[h] in m.Values;
      }
    }
  }

  // Two processes that loaded the same file give a GUID that is in it the same id, whatever
  // else each was asked before.
  lemma ReloadKeepsIds(hash: string -> Id, file: map<string, int>, guid: string,
                       maps1: seq<map<string, int>>, guids1: seq<string>,
                       maps2: seq<map<string, int>>, guids2: seq<string>)
    requires Lookups(hash, maps1, guids1) && maps1[0] == file
    requires Lookups(hash, maps2, guids2) && maps2[0] == file
    requires guid in file
    ensures guid in maps1[|guids1|] && guid in maps2[|guids2|]
    ensures maps1[|guids1|][guid] == maps2[|guids2|][guid] == file[guid]
  {
    IdsAreForGood(hash, maps1, guids1, 0);
    IdsAreForGood(hash, maps2, guids2, 0);
  }

  // ---------- A process and the one after it ----------

  // The last lookup that assigned an id, -1 if none did.
  predicate LastAssigning(maps: seq<map<string, int>>, guids: seq<string>, last: int)
    requires |maps| == |guids| + 1
  {
    && -1 <= last < |guids|
    && (last >= 0 ==> guids[last] !in maps[last])
    && forall i :: last < i < |guids| ==> guids[i] in maps[i]
  }

  lemma LastGrows(maps: seq<map<string, int>>, guids: seq<string>, last: int, after: map<string, int>)
    requires guids != [] && |maps| == |guids| && LastAssigning(maps, guids[..|guids| - 1], last)
    ensures var n := |guids| - 1;
            LastAssigning(maps + [after], guids, if guids[n] in maps[n] then last else n)
  {
    assert forall i :: 0 <= i < |guids| - 1 ==> guids[..|guids| - 1][i] == guids[i];
  }

  lemma AtMostOneMore(before: map<string, int>, guid: string, after: map<string, int>)
    requires after == before || (guid in after && after == before[guid := after[guid]])
    ensures |after| <= |before| + 1
  {
    if after != before {
      assert after.Keys == before.Keys + {guid};
    }
  }

  // One more lookup on top of a run; guids ends with the one asked now.
  method AskOne(m: Map, guids: seq<string>, write: Write, ghost before: seq<map<string, int>>, ghost lastBefore: int)
    returns (ghost maps: seq<map<string, int>>, ghost last: int)
    requires m.Valid() && guids != [] && |m.byKey| < MAX_ID
    requires Lookups(m.hash, before, guids[..|guids| - 1]) && before[|guids| - 1] == m.byKey
    requires LastAssigning(before, guids[..|guids| - 1], lastBefore)
    modifies m`byKey, m`byID, m`disk
    ensures m.Valid() && |m.byKey| <= |old(m.byKey)| + 1
    ensures Lookups(m.hash, maps, guids) && maps == before + [m.byKey]
    ensures LastAssigning(maps, guids, last)
    ensures guids[|guids| - 1] in old(m.byKey) ==> last == lastBefore && m.byKey == old(m.byKey) && m.disk == old(m.disk)
    ensures guids[|guids| - 1] !in old(m.byKey) ==>
              last == |guids| - 1 && (m.persistent && write.Done? ==> m.disk == Holding(m.byKey))
  {
    ghost var known := m.byKey;
    var n := |guids| - 1;
    var _ := m.ID(guids[n], write);
    maps := before + [m.byKey];
    last := if guids[n] in known then lastBefore else n;
    LookupsGrow(m.hash, before, guids, maps, m.byKey);
    LastGrows(before, guids, lastBefore, m.byKey);
    AtMostOneMore(known, guids[n], m.byKey);
  }

  // Any lookups, each with the fate of the write it may cause.
  method AskAll(m: Map, guids: seq<string>, writes: seq<Write>)
    returns (ghost maps: seq<map<string, int>>, ghost last: int)
    requires m.Valid() && |guids| == |writes| && |m.byKey| + |guids| < MAX_ID
    modifies m`byKey, m`byID, m`disk
    ensures m.Valid() && Lookups(m.hash, maps, guids) && maps[0] == old(m.byKey) && maps[|guids|] == m.byKey
    ensures LastAssigning(maps, guids, last)
    ensures last == -1 ==> m.byKey == old(m.byKey) && m.disk == old(m.disk)
    ensures last >= 0 && m.persistent && writes[last].Done? ==> m.disk == Holding(m.byKey)
    ensures |m.byKey| <= |old(m.byKey)| + |guids|
    decreases |guids|
  {
    if guids == [] {
      return [m.byKey], -1;
    }
    var n := |guids| - 1;
    maps, last := AskAll(m, guids[..n], writes[..n]);
    maps, last := AskOne(m, guids, writes[n], maps, last);
  }

  // A process that asks, and the next one over the file it leaves: once the last assigning
  // write has completed, the next starts with every id as it was.
  method AskThenRestart(m: Map, guids: seq<string>, writes: seq<Write>) returns (next: Option<Map>, ghost last: int)
    requires m.Valid() && m.persistent && |guids| == |writes| && |m.byKey| + |guids| < MAX_ID
    modifies m`byKey, m`byID, m`disk
    ensures -1 <= last < |guids|
    ensures forall g <- guids :: g in m.byKey
    ensures (if last == -1 then old(m.disk) == Holding(old(m.byKey)) else writes[last].Done?) ==>
              && next.Some? && next.value.Valid() && next.value.hash == m.hash && next.value.persistent
              && next.value.byKey == m.byKey
  {
    ghost var maps;
    maps, last := AskAll(m, guids, writes);
    forall g <- guids
      ensures g in m.byKey
    {
      var i :| 0 <= i < |guids| && guids[i] == g;
      IdsAreForGood(m.hash, maps, guids, i + 1);
    }
    next := Map.New(m.hash, m.persistent, m.disk);
  }

  // An unassigned GUID gets its own hash exactly when nobody has that id.
  lemma HashIsKeptExactly(hash: string -> Id, m: map<string, int>, guid: string, id: int, after: map<string, int>)
    requires guid !in m && Assigned(hash, m, guid, id, after)
    ensures id == hash(guid) <==> hash(guid) !in m.Values
  {
    var h := hash(guid);
    assert Steps(h, h) < Steps(h, id) ==> h in m.Values;
  }

  // ---------- Without the file ----------

  predicate HashesApart(hash: string -> Id, guids: set<string>) {
    forall g <- guids, h <- guids :: hash(g) == hash(h) ==> g == h
  }

  predicate AllHashed(hash: string -> Id, m: map<string, int>) {
    forall g <- m :: m[g] == hash(g)
  }

  // Starting from nothing, every GUID is given its own hash exactly when no two of them share
  // one. Where two do, a third may be displaced as well.
  lemma {:induction false} FirstIdsAreHashesExactly(hash: string -> Id, maps: seq<map<string, int>>, guids: seq<string>)
    requires Lookups(hash, maps, guids) && maps[0] == map[]
    ensures var last := maps[|guids|]; AllHashed(hash, last) <==> HashesApart(hash, last.Keys)
  {
    var last := maps[|guids|];
    IdsAreForGood(hash, maps, guids, 0);
    if HashesApart(hash, last.Keys) {
      HashesKept(hash, maps, guids, |guids|);
    }
  }

  lemma {:induction false} HashesKept(hash: string -> Id, maps: seq<map<string, int>>, guids: seq<string>, n: nat)
    requires Lookups(hash, maps, guids) && maps[0] == map[] && n <= |guids|
    requires HashesApart(hash, maps[|guids|].Keys)
    ensures AllHashed(hash, maps[n])
  {
    if 0 < n {
      HashesKept(hash, maps, guids, n - 1);
      IdsAreForGood(hash, maps, guids, n);
      var guid := guids[n - 1];
      if guid !in maps[n - 1] {
        IdsAreForGood(hash, maps, guids, n - 1);
        assert hash(guid) !in maps[n - 1].Values;
        HashIsKeptExactly(hash, maps[n - 1], guid, maps[n][guid], maps[n]);
      }
    }
  }

  // The GUIDs known at the end are exactly those asked for.
  lemma {:induction false} KnownAreAsked(hash: string -> Id, maps: seq<map<string, int>>, guids: seq<string>, n: nat)
    requires Lookups(hash, maps, guids) && maps[0] == map[] && n <= |guids|
    ensures forall g :: g in maps[n] <==> g in guids[..n]
  {
    if 0 < n {
      KnownAreAsked(hash, maps, guids, n - 1);
      assert guids[..n] == guids[..n - 1] + [guids[n - 1]];
    }
  }

  // A run is determined by where it starts and what it is asked.
  lemma {:induction false} LookupsAreDetermined(hash: string -> Id, maps1: seq<map<string, int>>,
                                                maps2: seq<map<string, int>>, guids: seq<string>, n: nat)
    requires Lookups(hash, maps1, guids) && Lookups(hash, maps2, guids) && maps1[0] == maps2[0] && n <= |guids|
    ensures maps1[n] == maps2[n]
  {
    if 0 < n {
      LookupsAreDetermined(hash, maps1, maps2, guids, n - 1);
      var guid := guids[n - 1];
      if guid !in maps1[n - 1] {
        FirstFreeIsUnique(maps1[n - 1].Values, hash(guid), maps1[n][guid], maps2[n][guid]);
      }
    }
  }

  // A process that starts without a file, asked for guids in this order.
  ghost predicate EndsWith(hash: string -> Id, guids: seq<string>, last: map<string, int>) {
    exists maps :: Lookups(hash, maps, guids) && maps[0] == map[] && maps[|guids|] == last
  }

  ghost predicate OrderNeverMatters(hash: string -> Id, asked: set<string>) {
    forall s: seq<string>, t: seq<string>, a: map<string, int>, b: map<string, int> ::
      Covers(s, asked) && Covers(t, asked) && EndsWith(hash, s, a) && EndsWith(hash, t, b) ==> a == b
  }

  predicate Covers(guids: seq<string>, asked: set<string>) {
    (forall g <- guids :: g in asked) && forall g <- asked :: g in guids
  }

  lemma FirstFreeExists(taken: set<int>, from: Id) returns (id: Id)
    requires |taken| < MAX_ID
    ensures FirstFree(taken, from, id)
  {
    ghost var free := SomeIdIsFree(taken);
    id := from;
    while id in taken
      invariant forall other: Id :: Steps(from, other) < Steps(from, id) ==> other in taken
      invariant Steps(from, id) + Steps(id, free) == Steps(from, free)
      decreases Steps(id, free)
    {
      id := Following(id);
    }
  }

  lemma SomeLookup(hash: string -> Id, m: map<string, int>, guid: string) returns (after: map<string, int>)
    requires |m| < MAX_ID
    ensures guid in after && Assigned(hash, m, guid, after[guid], after) && |after| <= |m| + 1
  {
    if guid in m {
      after := m;
    } else {
      ValuesAreFewer(m);
      var id := FirstFreeExists(m.Values, hash(guid));
      after := m[guid := id];
      assert after.Keys == m.Keys + {guid};
    }
  }

  // Any GUIDs can be asked for, in any order.
  lemma {:induction false} SomeRun(hash: string -> Id, guids: seq<string>) returns (maps: seq<map<string, int>>)
    requires |guids| < MAX_ID
    ensures Lookups(hash, maps, guids) && maps[0] == map[]
    ensures |maps[|guids|]| <= |guids|
  {
    if guids == [] {
      maps := [map[]];
    } else {
      var n := |guids| - 1;
      var before := SomeRun(hash, guids[..n]);
      var after := SomeLookup(hash, before[n], guids[n]);
      maps := before + [after];
      LookupsGrow(hash, before, guids, maps, after);
    }
  }

  lemma LookupsGrow(hash: string -> Id, before: seq<map<string, int>>, guids: seq<string>,
                    maps: seq<map<string, int>>, after: map<string, int>)
    requires guids != [] && Lookups(hash, before, guids[..|guids| - 1]) && maps == before + [after]
    requires var n := |guids| - 1; guids[n] in after && Assigned(hash, before[n], guids[n], after[guids[n]], after)
    ensures Lookups(hash, maps, guids)
  {
    forall i | 0 <= i < |guids|
      ensures guids[i] in maps[i + 1] && Assigned(hash, maps[i], guids[i], maps[i + 1][guids[i]], maps[i + 1])
    {
      if i < |guids| - 1 {
        assert guids[..|guids| - 1][i] == guids[i];
      }
    }
  }

  lemma {:induction false} SomeOrder(asked: set<string>) returns (guids: seq<string>)
    ensures Covers(guids, asked) && |guids| == |asked|
  {
    if asked == {} {
      guids := [];
    } else {
      var g :| g in asked;
      var rest := SomeOrder(asked - {g});
      guids := [g] + rest;
    }
  }

  // Two processes without a file agree on the ids of the same GUIDs, whatever order each was
  // asked in, exactly when no two of those GUIDs share a hash.
  lemma OrderNeverMattersExactly(hash: string -> Id, asked: set<string>)
    requires |asked| < MAX_ID
    ensures OrderNeverMatters(hash, asked) <==> HashesApart(hash, asked)
  {
    if HashesApart(hash, asked) {
      forall s: seq<string>, t: seq<string>, a: map<string, int>, b: map<string, int>
        | Covers(s, asked) && Covers(t, asked) && EndsWith(hash, s, a) && EndsWith(hash, t, b)
        ensures a == b
      {
        EndIsHashes(hash, s, a, asked);
        EndIsHashes(hash, t, b, asked);
      }
    } else {
      var g, h :| g in asked && h in asked && hash(g) == hash(h) && g != h;
      var s, a := FirstAskedGetsItsHash(hash, asked, g);
      var t, b := FirstAskedGetsItsHash(hash, asked, h);
      assert a[g] != a[h];
      assert a != b;
    }
  }

  lemma EndIsHashes(hash: string -> Id, guids: seq<string>, last: map<string, int>, asked: set<string>)
    requires Covers(guids, asked) && EndsWith(hash, guids, last) && HashesApart(hash, asked)
    ensures last == map g | g in asked :: hash(g)
  {
    var maps :| Lookups(hash, maps, guids) && maps[0] == map[] && maps[|guids|] == last;
    KnownAreAsked(hash, maps, guids, |guids|);
    assert guids[..|guids|] == guids;
    FirstIdsAreHashesExactly(hash, maps, guids);
  }

  // Asked first, a GUID gets its hash, and every other one something else.
  lemma FirstAskedGetsItsHash(hash: string -> Id, asked: set<string>, first: string)
    returns (guids: seq<string>, last: map<string, int>)
    requires first in asked && |asked| < MAX_ID
    ensures Covers(guids, asked) && EndsWith(hash, guids, last) && last.Keys == asked
    ensures last[first] == hash(first) && forall g <- last :: last[g] == hash(first) ==> g == first
  {
    var rest := SomeOrder(asked - {first});
    guids := [first] + rest;
    var maps := SomeRun(hash, guids);
    last := maps[|guids|];
    KnownAreAsked(hash, maps, guids, |guids|);
    assert guids[..|guids|] == guids;
    HashIsKeptExactly(hash, maps[0], first, maps[1][first], maps[1]);
    IdsAreForGood(hash, maps, guids, 1);
    IdsAreForGood(hash, maps, guids, 0);
  }

  // Two GUIDs with one hash: whichever is asked for first gets it.
  lemma UnsavedIdDependsOnOrder(hash: string -> Id, a: string, b: string)
    requires a != b && hash(a) == hash(b)
    ensures Assigned(hash, map[], b, hash(b), map[b := hash(b)])
    ensures Assigned(hash, map[a := hash(a)], b, Following(hash(b)), map[a := hash(a), b := Following(hash(b))])
    ensures Following(hash(b)) != hash(b)
  {
    var h: Id := hash(a);
    assert map[a := h][a] in map[a := h].Values;
    forall other: Id | Steps(h, other) < Steps(h, Following(h))
      ensures other in map[a := h].Values
    {
      assert other == h;
    }
    assert map[a := hash(a), b := Following(hash(b))] == map[a := hash(a)][b := Following(hash(b))];
  }
}
