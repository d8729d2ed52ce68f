// Interning tables: the clients, domains and DNS cache records of the store, each a
// set of records addressed by ID, a sorted hash index over them and a stack of
// recycled IDs (src/datastructure.c, src/lookup-table.c, src/shmem.c, src/gc.c).
// Everything is proved for an arbitrary hash function, collisions included.
module Interning {
  import opened Records
  import opened Lookup

  const RECYCLE_ARRAY_LEN := 65535

  datatype Rec<K, V> = Rec(key: K, data: V)

  /** `live` holds the records whose magic byte is set; memory of any other ID is zero.
      `used` is the running counter (counters->domains and its siblings), which grows
      on every creation, the reuse of a recycled ID included. */
  datatype Table<K, V> = Table(
    live: map<nat, Rec<K, V>>,
    lookup: seq<Entry>,
    free: seq<nat>,
    used: nat)

  // The index and the live records are in bijection, each entry carries the hash of
  // its record's key, and no key is stored twice
  ghost predicate Indexed<K, V>(t: Table<K, V>, h: K -> nat) {
    && Sorted(t.lookup)
    && DistinctIds(t.lookup)
    && (forall e :: e in t.lookup ==> e.id in t.live && e.hash == h(t.live[e.id].key))
    && (forall id :: id in t.live ==> Entry(id, h(t.live[id].key)) in t.lookup)
    && (forall a, b :: a in t.live && b in t.live && t.live[a].key == t.live[b].key ==> a == b)
  }

  // Recycled IDs are listed once, are not in use, and no ID reaches the counter
  ghost predicate Allocatable<K, V>(t: Table<K, V>) {
    && (forall id :: id in t.live ==> id < t.used)
    && (forall i :: 0 <= i < |t.free| ==> t.free[i] < t.used && t.free[i] !in t.live)
    && (forall i, j :: 0 <= i < j < |t.free| ==> t.free[i] != t.free[j])
    && |t.free| <= RECYCLE_ARRAY_LEN
  }

  ghost predicate Valid<K, V>(t: Table<K, V>, h: K -> nat) {
    Indexed(t, h) && Allocatable(t)
  }

  function Empty<K, V>(): Table<K, V> {
    Table(map[], [], [], 0)
  }

  // ---- Finding ----

  /** The finite map a table stands for: the ID a key is interned under. */
  ghost function FindId<K, V>(t: Table<K, V>, key: K): (r: Option<nat>)
    ensures r.Some? ==> r.value in t.live && t.live[r.value].key == key
    ensures r.None? ==> forall id :: id in t.live ==> t.live[id].key != key
  {
    if id :| id in t.live && t.live[id].key == key then Some(id) else None
  }

  lemma IndexedLive<K, V>(t: Table<K, V>, h: K -> nat)
    requires Indexed(t, h)
    ensures Sorted(t.lookup) && forall i :: 0 <= i < |t.lookup| ==> t.lookup[i].id in t.live
  {
    forall i | 0 <= i < |t.lookup|
      ensures t.lookup[i].id in t.live
    {
      assert t.lookup[i] in t.lookup;
    }
  }

  lemma FindIdIs<K, V>(t: Table<K, V>, key: K, h: K -> nat, id: nat)
    requires Indexed(t, h) && id in t.live && t.live[id].key == key
    ensures FindId(t, key) == Some(id)
  {
  }

  // A key no entry of its hash belongs to is not interned
  lemma FindIdAbsent<K, V>(t: Table<K, V>, key: K, h: K -> nat)
    requires Indexed(t, h)
    requires forall i :: 0 <= i < |t.lookup| && t.lookup[i].hash == h(key) && t.lookup[i].id in t.live ==> t.live[t.lookup[i].id].key != key
    ensures FindId(t, key).None?
  {
    forall id | id in t.live
      ensures t.live[id].key != key
    {
      assert Entry(id, h(t.live[id].key)) in t.lookup;
    }
  }

  /** lookup_find_id(): binary search, step back to the first entry of that hash, then
      compare the records one by one. */
  method LookupFindId<K(==), V>(t: Table<K, V>, key: K, hash: nat, ghost h: K -> nat) returns (r: Option<nat>)
    requires Indexed(t, h) && hash == h(key)
    ensures r == FindId(t, key)
  {
    IndexedLive(t, h);
    hide Indexed;
    var found, pos := BinSearch(t.lookup, hash);
    if !found {
      SearchMiss(t.lookup, hash, 0, |t.lookup|);
      FindIdAbsent(t, key, h);
      return None;
    }
    pos := FirstOf(t.lookup, hash, pos);
    r := ScanRun(t, key, hash, pos, h);
  }

  // The records of a hash are compared one by one, from its first entry on
  method ScanRun<K(==), V>(t: Table<K, V>, key: K, hash: nat, first: nat, ghost h: K -> nat) returns (r: Option<nat>)
    requires Indexed(t, h) && hash == h(key) && first < |t.lookup| && t.lookup[first].hash == hash
    requires forall i :: 0 <= i < first ==> t.lookup[i].hash < hash
    ensures r == FindId(t, key)
  {
    IndexedLive(t, h);
    hide Indexed, FindId;
    var pos := first;
    while pos < |t.lookup| && t.lookup[pos].hash == hash
      invariant first <= pos <= |t.lookup|
      invariant pos > first ==> t.lookup[pos - 1].hash == hash
      invariant forall i :: 0 <= i < pos && t.lookup[i].hash == hash ==> t.live[t.lookup[i].id].key != key
    {
      if t.live[t.lookup[pos].id].key == key {
        FindIdIs(t, key, h, t.lookup[pos].id);
        return Some(t.lookup[pos].id);
      }
      pos := pos + 1;
    }
    FindIdAbsent(t, key, h);
    return None;
  }

  // ---- Creating ----

  // get_next_free_*ID(): the most recently recycled ID, or the counter
  function NextId<K, V>(t: Table<K, V>): (id: nat)
    ensures Allocatable(t) ==> id !in t.live && id <= t.used
  {
    if t.free != [] then t.free[|t.free| - 1] else t.used
  }

  function Created<K, V>(t: Table<K, V>, key: K, data: V, hash: nat): (r: Table<K, V>)
  {
    var id := NextId(t);
    Table(t.live[id := Rec(key, data)],
          Inserted(t.lookup, Entry(id, hash)),
          if t.free != [] then t.free[..|t.free| - 1] else t.free,
          t.used + 1)
  }

  lemma CreatedValid<K, V>(t: Table<K, V>, key: K, data: V, h: K -> nat)
    requires Valid(t, h) && FindId(t, key).None?
    ensures Valid(Created(t, key, data, h(key)), h)
    ensures NextId(t) !in t.live
  {
    var e := Entry(NextId(t), h(key));
    var r := Created(t, key, data, h(key));
    forall i | 0 <= i < |t.lookup|
      ensures t.lookup[i].id != e.id
    {
      assert t.lookup[i] in t.lookup;
    }
    InsertedSorted(t.lookup, e);
    InsertedDistinct(t.lookup, e);
    forall id | id in r.live
      ensures Entry(id, h(r.live[id].key)) in r.lookup
    {
      if id != e.id {
        assert Entry(id, h(t.live[id].key)) in t.lookup;
      }
    }
    CreatedAllocatable(t, key, data, h(key));
  }

  /** A new record takes the ID that was recycled last, which leaves the free list; only without
      one it takes the counter. The counter grows either way. */
  lemma CreatedReuses<K, V>(t: Table<K, V>, key: K, data: V, h: K -> nat)
    requires Valid(t, h) && FindId(t, key).None?
    ensures var r := Created(t, key, data, h(key));
            && FindId(r, key).Some? && r.used == t.used + 1
            && var id := FindId(r, key).value;
               && r.live == t.live[id := Rec(key, data)]
               && if t.free == [] then id == t.used && r.free == [] else t.free == r.free + [id]
  {
    CreatedValid(t, key, data, h);
    FindIdIs(Created(t, key, data, h(key)), key, h, NextId(t));
  }

  lemma CreatedAllocatable<K, V>(t: Table<K, V>, key: K, data: V, hash: nat)
    requires Allocatable(t)
    ensures Allocatable(Created(t, key, data, hash))
  {
  }

  // ---- Updating the data of a record ----

  function Updated<K, V>(t: Table<K, V>, id: nat, data: V): (r: Table<K, V>)
    requires id in t.live
  {
    t.(live := t.live[id := Rec(t.live[id].key, data)])
  }

  // Two tables with the same keys, index and free list are valid together
  lemma SameKeysValid<K, V>(t: Table<K, V>, r: Table<K, V>, h: K -> nat)
    requires Valid(t, h)
    requires r.live.Keys == t.live.Keys && r.lookup == t.lookup && r.free == t.free && r.used == t.used
    requires forall id :: id in t.live ==> r.live[id].key == t.live[id].key
    ensures Valid(r, h)
  {
    forall e | e in r.lookup
      ensures e.id in r.live && e.hash == h(r.live[e.id].key)
    {
      assert e in t.lookup;
    }
    forall id | id in r.live
      ensures Entry(id, h(r.live[id].key)) in r.lookup
    {
      assert id in t.live;
    }
    assert forall id :: id in r.live ==> id in t.live;
    assert forall a, b :: a in r.live && b in r.live && r.live[a].key == r.live[b].key ==> t.live[a].key == t.live[b].key;
  }

  // ---- Recycling ----

  // set_next_recycled_ID(): a full list forgets the ID
  function Pushed(free: seq<nat>, id: nat): (r: seq<nat>) {
    if |free| >= RECYCLE_ARRAY_LEN then free else free + [id]
  }

  function FreedIds(free: seq<nat>, t: seq<Entry>, dead: set<nat>): (r: seq<nat>) {
    if t == [] then free
    else
      var f := FreedIds(free, t[..|t| - 1], dead);
      if t[|t| - 1].id in dead then Pushed(f, t[|t| - 1].id) else f
  }

  function Recycled<K, V>(t: Table<K, V>, dead: set<nat>): (r: Table<K, V>)
  {
    Table(map id | id in t.live && id !in dead :: t.live[id],
          Kept(t.lookup, dead),
          FreedIds(t.free, t.lookup, dead),
          t.used)
  }

  lemma {:induction false} FreedIdsOk(free: seq<nat>, t: seq<Entry>, dead: set<nat>)
    requires |free| <= RECYCLE_ARRAY_LEN
    requires forall i, j :: 0 <= i < j < |free| ==> free[i] != free[j]
    requires DistinctIds(t)
    requires forall e :: e in t ==> e.id !in free
    ensures |FreedIds(free, t, dead)| <= RECYCLE_ARRAY_LEN
    ensures forall x :: x in FreedIds(free, t, dead) ==> x in free || (x in dead && exists i :: 0 <= i < |t| && t[i].id == x)
    ensures forall i, j :: 0 <= i < j < |FreedIds(free, t, dead)| ==> FreedIds(free, t, dead)[i] != FreedIds(free, t, dead)[j]
  {
    if t != [] {
      var front, last := t[..|t| - 1], t[|t| - 1];
      assert forall e :: e in front ==> e in t;
      FreedIdsOk(free, front, dead);
      var f := FreedIds(free, front, dead);
      forall x | x in f
        ensures x != last.id
        ensures x in free || (x in dead && exists i :: 0 <= i < |t| && t[i].id == x)
      {
        if x !in free {
          var i :| 0 <= i < |front| && front[i].id == x;
          assert t[i].id == x && t[i].id != t[|t| - 1].id;
        } else {
          assert last in t;
        }
      }
      assert t[|t| - 1].id == last.id;
    }
  }

  lemma RecycledIndexed<K, V>(t: Table<K, V>, dead: set<nat>, h: K -> nat)
    requires Indexed(t, h)
    ensures Indexed(Recycled(t, dead), h)
  {
    KeptSorted(t.lookup, dead);
    KeptDistinct(t.lookup, dead);
    KeptMembers(t.lookup, dead);
  }

  lemma RecycledAllocatable<K, V>(t: Table<K, V>, dead: set<nat>, h: K -> nat)
    requires Valid(t, h)
    ensures Allocatable(Recycled(t, dead))
  {
    forall e | e in t.lookup
      ensures e.id !in t.free
    {
      assert e.id in t.live;
    }
    FreedIdsOk(t.free, t.lookup, dead);
    var r := Recycled(t, dead);
    forall i | 0 <= i < |r.free|
      ensures r.free[i] < r.used && r.free[i] !in r.live
    {
      assert r.free[i] in r.free;
      if r.free[i] !in t.free {
        var j :| 0 <= j < |t.lookup| && t.lookup[j].id == r.free[i];
        assert t.lookup[j] in t.lookup;
      }
    }
  }

  /** Recycling keeps the table valid, whatever set of records it drops. */
  lemma RecycledValid<K, V>(t: Table<K, V>, dead: set<nat>, h: K -> nat)
    requires Valid(t, h)
    ensures Valid(Recycled(t, dead), h)
  {
    RecycledIndexed(t, dead, h);
    RecycledAllocatable(t, dead, h);
  }

  lemma RecycledStep(free: seq<nat>, t: seq<Entry>, i: nat, dead: set<nat>)
    requires i < |t|
    ensures Kept(t[..i + 1], dead) == if t[i].id in dead then Kept(t[..i], dead) else Kept(t[..i], dead) + [t[i]]
    ensures FreedIds(free, t[..i + 1], dead) ==
            if t[i].id in dead then Pushed(FreedIds(free, t[..i], dead), t[i].id) else FreedIds(free, t[..i], dead)
  {
    assert t[..i + 1][..i] == t[..i];
  }

  // Every record is reached through the index, and through one entry only
  lemma IndexedEntry<K, V>(t: Table<K, V>, h: K -> nat, i: nat)
    requires Indexed(t, h) && i < |t.lookup|
    ensures t.lookup[i].id in t.live
    ensures forall j :: 0 <= j < |t.lookup| && j != i ==> t.lookup[j].id != t.lookup[i].id
  {
    assert t.lookup[i] in t.lookup;
  }

  lemma IndexedAll<K, V>(t: Table<K, V>, h: K -> nat, id: nat)
    requires Indexed(t, h) && id in t.live
    ensures exists j :: 0 <= j < |t.lookup| && t.lookup[j].id == id
  {
    assert Entry(id, h(t.live[id].key)) in t.lookup;
  }

  ghost function DeadIds<K, V>(t: Table<K, V>, keep: V -> bool): set<nat> {
    set id | id in t.live && !keep(t.live[id].data)
  }

  /** One of the loops of recycle(): surviving entries move to a write cursor behind the
      read cursor, dropped records give their ID to the free list. */
  method RecycleTable<K, V>(t: Table<K, V>, keep: V -> bool, ghost h: K -> nat) returns (r: Table<K, V>)
    requires Indexed(t, h)
    ensures r == Recycled(t, DeadIds(t, keep))
  {
    hide Indexed, Kept, FreedIds, Pushed;
    var live, lookup, free, write := t.live, t.lookup, t.free, 0;
    ghost var dead := DeadIds(t, keep);
    ghost var gone: set<nat> := {};
    RecycledNone(t.free, t.lookup, dead);
    for i := 0 to |lookup|
      invariant |lookup| == |t.lookup| && 0 <= write <= i
      invariant forall j :: i <= j < |lookup| ==> lookup[j] == t.lookup[j]
      invariant lookup[..write] == Kept(t.lookup[..i], dead)
      invariant free == FreedIds(t.free, t.lookup[..i], dead)
      invariant gone <= dead && live == t.live - gone
      invariant forall j :: 0 <= j < i && t.lookup[j].id in dead ==> t.lookup[j].id in gone
      invariant forall j :: i <= j < |t.lookup| ==> t.lookup[j].id !in gone
    {
      var e := lookup[i];
      IndexedEntry(t, h, i);
      RecycledStep(t.free, t.lookup, i, dead);
      if keep(live[e.id].data) {
        lookup := lookup[write := e];
        write := write + 1;
      } else {
        free := Pushed(free, e.id);
        live := live - {e.id};
        gone := gone + {e.id};
      }
    }
    assert t.lookup[..|lookup|] == t.lookup;
    forall id | id in dead
      ensures id in gone
    {
      IndexedAll(t, h, id);
    }
    assert gone == dead;
    r := Table(live, lookup[..write], free, t.used);
  }

  lemma RecycledNone(free: seq<nat>, t: seq<Entry>, dead: set<nat>)
    ensures Kept(t[..0], dead) == [] && FreedIds(free, t[..0], dead) == free
  {
  }

  // ---- Interning refines a finite map, over any run ----

  datatype Op<K> = Intern(key: K) | Recycle(dead: set<nat>)

  ghost function Apply<K, V>(t: Table<K, V>, op: Op<K>, zero: V, h: K -> nat): Table<K, V>
  {
    match op
    case Intern(key) => if FindId(t, key).Some? then t else Created(t, key, zero, h(key))
    case Recycle(dead) => Recycled(t, dead)
  }

  ghost function Run<K, V>(ops: seq<Op<K>>, zero: V, h: K -> nat): Table<K, V>
  {
    if ops == [] then Empty() else Apply(Run(ops[..|ops| - 1], zero, h), ops[|ops| - 1], zero, h)
  }

  /** After any run of interning and recycling, in any order and for any hash function:
      equal keys get the same ID and different keys different IDs, an ID handed out is
      not in use and not on the free list, and the free list holds no ID twice. */
  lemma {:induction false} RunsIntern<K, V>(ops: seq<Op<K>>, zero: V, h: K -> nat)
    ensures Valid(Run(ops, zero, h), h)
    ensures NextId(Run(ops, zero, h)) !in Run(ops, zero, h).live
    ensures forall a, b :: a in Run(ops, zero, h).live && b in Run(ops, zero, h).live ==>
              (a == b <==> Run(ops, zero, h).live[a].key == Run(ops, zero, h).live[b].key)
  {
    if ops != [] {
      var t, op := Run(ops[..|ops| - 1], zero, h), ops[|ops| - 1];
      RunsIntern(ops[..|ops| - 1], zero, h);
      match op {
        case Intern(key) =>
          if FindId(t, key).None? {
            CreatedValid(t, key, zero, h);
          }
        case Recycle(dead) =>
          RecycledValid(t, dead, h);
      }
    }
  }

  // Interning a key keeps every other key's ID and gives this key one
  lemma InternKeepsOthers<K, V>(t: Table<K, V>, key: K, other: K, zero: V, h: K -> nat)
    requires Valid(t, h)
    ensures FindId(Apply(t, Intern(key), zero, h), key).Some?
    ensures other != key ==> FindId(Apply(t, Intern(key), zero, h), other) == FindId(t, other)
  {
    var r := Apply(t, Intern(key), zero, h);
    if FindId(t, key).None? {
      CreatedValid(t, key, zero, h);
      assert NextId(t) in r.live && r.live[NextId(t)].key == key;
      if other != key && FindId(t, other).Some? {
        assert r.live[FindId(t, other).value].key == other;
      }
    }
  }
}
