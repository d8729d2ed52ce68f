// The process-local open-addressing hash table of the string pool (src/shmem.c:225-304).
// Capacities are powers of two, so masking a hash is taking its remainder.
module ProbeTable {
  import opened Records

  const STR_HASH_MIN_CAP := 4096

  // A slot; hash 0 marks it as empty
  datatype Entry = Entry(hash: nat, offset: nat)

  // An empty sequence stands for the table that is not allocated yet
  datatype Index = Index(table: seq<Entry>, used: nat, synced: nat)

  function Next(i: nat, cap: nat): (j: nat)
    requires i < cap
    ensures j < cap
  {
    if i + 1 < cap then i + 1 else 0
  }

  function Blank(cap: nat): (t: seq<Entry>)
    ensures |t| == cap && forall i :: 0 <= i < cap ==> t[i].hash == 0
  {
    seq(cap, i => Entry(0, 0))
  }

  // ---- Probing ----

  // The first empty slot at or after i, looking at n slots
  function FreeFrom(t: seq<Entry>, i: nat, n: nat): (f: nat)
    requires i < |t|
    ensures f < |t|
    decreases n
  {
    if n == 0 || t[i].hash == 0 then i else FreeFrom(t, Next(i, |t|), n - 1)
  }

  // Probing from i meets slot j, within n slots, before any empty one
  ghost predicate OnPath(t: seq<Entry>, i: nat, j: nat, n: nat)
    requires i < |t|
    decreases n
  {
    n > 0 && t[i].hash != 0 && (i == j || OnPath(t, Next(i, |t|), j, n - 1))
  }

  // The number of steps from slot i to slot e
  ghost function Distance(i: nat, e: nat, cap: nat): (d: nat)
    requires i < cap && e < cap
    ensures d < cap
  {
    if i <= e then e - i else cap - i + e
  }

  ghost function Occupied(t: seq<Entry>): nat {
    if t == [] then 0 else Occupied(t[..|t| - 1]) + if t[|t| - 1].hash != 0 then 1 else 0
  }

  /** Every entry is where probing for its hash finds it. */
  ghost predicate Placed(t: seq<Entry>) {
    forall j :: 0 <= j < |t| && t[j].hash != 0 ==> OnPath(t, t[j].hash % |t|, j, |t|)
  }

  ghost function Content(t: seq<Entry>): set<Entry> {
    set e | e in t && e.hash != 0
  }

  // The load bound leaves an empty slot, which is what ends every probe
  ghost predicate Loose(ix: Index) {
    Occupied(ix.table) <= ix.used && (ix.table != [] ==> |ix.table| >= STR_HASH_MIN_CAP && ix.used * 4 <= |ix.table| * 3 + 3)
  }

  ghost predicate Valid(ix: Index) {
    Loose(ix) && Placed(ix.table) && (ix.table == [] ==> ix.used == 0)
  }

  // ---- An empty slot exists and is reached ----

  lemma {:induction false} EmptySlot(t: seq<Entry>) returns (e: nat)
    requires Occupied(t) < |t|
    ensures e < |t| && t[e].hash == 0
  {
    if t[|t| - 1].hash == 0 {
      e := |t| - 1;
    } else {
      e := EmptySlot(t[..|t| - 1]);
    }
  }

  lemma {:induction false} OccupiedBound(t: seq<Entry>)
    ensures Occupied(t) <= |t|
  {
    if t != [] {
      OccupiedBound(t[..|t| - 1]);
    }
  }

  lemma {:induction false} OccupiedSet(t: seq<Entry>, f: nat, x: Entry)
    requires f < |t| && t[f].hash == 0
    ensures Occupied(t[f := x]) == Occupied(t) + if x.hash != 0 then 1 else 0
  {
    var n := |t| - 1;
    if f == n {
      assert t[f := x][..n] == t[..n];
    } else {
      OccupiedSet(t[..n], f, x);
      assert t[f := x][..n] == t[..n][f := x];
    }
  }

  lemma {:induction false} OccupiedBlank(t: seq<Entry>)
    requires forall i :: 0 <= i < |t| ==> t[i].hash == 0
    ensures Occupied(t) == 0
  {
    if t != [] {
      OccupiedBlank(t[..|t| - 1]);
    }
  }

  lemma LooseHasRoom(ix: Index)
    requires Loose(ix) && ix.table != []
    ensures Occupied(ix.table) < |ix.table|
  {
  }

  // The probe stops at an empty slot, and the slot it fills is on the path
  lemma {:induction false} FreeReached(t: seq<Entry>, i: nat, n: nat, e: nat)
    requires i < |t| && e < |t| && t[e].hash == 0 && Distance(i, e, |t|) < n
    ensures t[FreeFrom(t, i, n)].hash == 0
    decreases n
  {
    if t[i].hash != 0 {
      FreeReached(t, Next(i, |t|), n - 1, e);
    }
  }

  lemma {:induction false} FilledOnPath(t: seq<Entry>, i: nat, n: nat, e: nat, x: Entry)
    requires i < |t| && e < |t| && t[e].hash == 0 && Distance(i, e, |t|) < n && x.hash != 0
    ensures var f := FreeFrom(t, i, n); OnPath(t[f := x], i, f, n)
    decreases n
  {
    FreeReached(t, i, n, e);
    if t[i].hash != 0 {
      FilledOnPath(t, Next(i, |t|), n - 1, e, x);
    }
  }

  // Filling an empty slot cuts no path
  lemma {:induction false} PathStable(t: seq<Entry>, i: nat, j: nat, n: nat, f: nat, x: Entry)
    requires i < |t| && f < |t| && t[f].hash == 0 && OnPath(t, i, j, n)
    ensures OnPath(t[f := x], i, j, n)
    decreases n
  {
    if i != j {
      PathStable(t, Next(i, |t|), j, n - 1, f, x);
    }
  }

  // ---- Storing an entry ----

  function Put(t: seq<Entry>, x: Entry): (r: seq<Entry>)
    requires |t| > 0
    ensures |r| == |t|
  {
    t[FreeFrom(t, x.hash % |t|, |t|) := x]
  }

  /** Storing an entry adds it to the content, keeps every other entry and keeps every
      entry findable. An entry whose hash is 0 stays invisible. */
  lemma PutKeeps(t: seq<Entry>, x: Entry)
    requires |t| > 0 && Placed(t) && Occupied(t) < |t|
    ensures Placed(Put(t, x))
    ensures Content(Put(t, x)) == Content(t) + if x.hash != 0 then {x} else {}
    ensures Occupied(Put(t, x)) == Occupied(t) + if x.hash != 0 then 1 else 0
  {
    var i := x.hash % |t|;
    var e := EmptySlot(t);
    FreeReached(t, i, |t|, e);
    var f := FreeFrom(t, i, |t|);
    var r := Put(t, x);
    OccupiedSet(t, f, x);
    if x.hash != 0 {
      FilledOnPath(t, i, |t|, e, x);
    }
    forall j | 0 <= j < |r| && r[j].hash != 0
      ensures OnPath(r, r[j].hash % |r|, j, |r|)
    {
      if j != f {
        PathStable(t, t[j].hash % |t|, j, |t|, f, x);
      }
    }
    PutContent(t, f, x);
  }

  lemma PutContent(t: seq<Entry>, f: nat, x: Entry)
    requires f < |t| && t[f].hash == 0
    ensures Content(t[f := x]) == Content(t) + if x.hash != 0 then {x} else {}
  {
    var r := t[f := x];
    forall e | e in Content(t)
      ensures e in Content(r)
    {
      var j :| 0 <= j < |t| && t[j] == e;
      assert r[j] == e;
    }
    assert r[f] == x;
  }

  /** The probing loop */
  method PutLoop(t: seq<Entry>, x: Entry) returns (r: seq<Entry>)
    requires |t| > 0 && Occupied(t) < |t|
    ensures r == Put(t, x)
  {
    ghost var e := EmptySlot(t);
    var i := x.hash % |t|;
    ghost var n := |t|;
    while t[i].hash != 0
      invariant 0 <= i < |t| && Distance(i, e, |t|) < n
      invariant FreeFrom(t, i, n) == FreeFrom(t, x.hash % |t|, |t|)
      decreases n
    {
      i := if i + 1 < |t| then i + 1 else 0;
      n := n - 1;
    }
    r := t[i := x];
  }

  // ---- Growing ----

  // The entries from slot k on are stored again in table t
  function Rehash(t: seq<Entry>, was: seq<Entry>, k: nat): (r: seq<Entry>)
    requires |t| > 0 && k <= |was|
    ensures |r| == |t|
    decreases |was| - k
  {
    if k == |was| then t
    else Rehash(if was[k].hash != 0 then Put(t, was[k]) else t, was, k + 1)
  }

  lemma {:induction false} RehashKeeps(t: seq<Entry>, was: seq<Entry>, k: nat)
    requires k <= |was| <= |t| && 0 < |t| && Placed(t)
    requires Occupied(t) + Occupied(was) - Occupied(was[..k]) < |t|
    ensures var r := Rehash(t, was, k);
            && Placed(r)
            && Content(r) == Content(t) + Content(was[k..])
            && Occupied(r) == Occupied(t) + Occupied(was) - Occupied(was[..k])
    decreases |was| - k
  {
    if k == |was| {
      assert was[..k] == was;
    } else {
      OccupiedPrefix(was, k + 1);
      assert was[..k + 1][..k] == was[..k];
      ContentSplit(was, k);
      if was[k].hash != 0 {
        PutKeeps(t, was[k]);
        RehashKeeps(Put(t, was[k]), was, k + 1);
      } else {
        RehashKeeps(t, was, k + 1);
      }
    }
  }

  lemma ContentSplit(was: seq<Entry>, k: nat)
    requires k < |was|
    ensures Content(was[k..]) == Content(was[k + 1..]) + if was[k].hash != 0 then {was[k]} else {}
  {
    assert was[k..] == [was[k]] + was[k + 1..];
  }

  lemma {:induction false} OccupiedPrefix(t: seq<Entry>, k: nat)
    requires k <= |t|
    ensures Occupied(t[..k]) <= Occupied(t)
    decreases |t|
  {
    if k == |t| {
      assert t[..k] == t;
    } else {
      assert t[..|t| - 1][..k] == t[..k];
      OccupiedPrefix(t[..|t| - 1], k);
    }
  }

  function Grow(ix: Index): (r: Index)
    ensures r.table != [] && r.synced == ix.synced
  {
    if ix.table == [] || ix.used * 4 >= |ix.table| * 3 then
      var cap := if ix.table == [] then STR_HASH_MIN_CAP else 2 * |ix.table|;
      ix.(table := Rehash(Blank(cap), ix.table, 0))
    else ix
  }

  lemma GrowKeeps(ix: Index)
    requires Valid(ix)
    ensures var r := Grow(ix);
            && Valid(r) && Content(r.table) == Content(ix.table) && r.used == ix.used && r.synced == ix.synced
            && r.table != [] && r.used * 4 < |r.table| * 3
  {
    if ix.table == [] || ix.used * 4 >= |ix.table| * 3 {
      var cap := if ix.table == [] then STR_HASH_MIN_CAP else 2 * |ix.table|;
      OccupiedBlank(Blank(cap));
      OccupiedBound(ix.table);
      assert ix.table[..0] == [] && ix.table[0..] == ix.table;
      RehashKeeps(Blank(cap), ix.table, 0);
    }
  }

  /** str_hash_insert() */
  function Insert(ix: Index, hash: nat, offset: nat): (r: Index)
    ensures r.synced == ix.synced
  {
    var g := Grow(ix);
    g.(table := Put(g.table, Entry(hash, offset)), used := g.used + 1)
  }

  lemma InsertKeeps(ix: Index, hash: nat, offset: nat)
    requires Valid(ix)
    ensures var r := Insert(ix, hash, offset);
            && Valid(r) && r.table != []
            && Content(r.table) == Content(ix.table) + if hash != 0 then {Entry(hash, offset)} else {}
  {
    GrowKeeps(ix);
    var g := Grow(ix);
    hide Grow, Placed, Content;
    LooseHasRoom(g);
    PutKeeps(g.table, Entry(hash, offset));
  }

  method InsertLoop(ix: Index, hash: nat, offset: nat) returns (r: Index)
    requires Valid(ix)
    ensures r == Insert(ix, hash, offset)
  {
    GrowKeeps(ix);
    r := GrowLoop(ix);
    LooseHasRoom(r);
    var t := PutLoop(r.table, Entry(hash, offset));
    r := r.(table := t, used := r.used + 1);
  }

  method GrowLoop(ix: Index) returns (r: Index)
    requires Valid(ix)
    ensures r == Grow(ix)
  {
    if ix.table != [] && ix.used * 4 < |ix.table| * 3 {
      return ix;
    }
    hide Valid, Rehash;
    var cap := if ix.table == [] then STR_HASH_MIN_CAP else 2 * |ix.table|;
    var t := RehashLoop(ix.table, cap);
    r := ix.(table := t);
  }

  lemma OccupiedStep(t: seq<Entry>, k: nat)
    requires k < |t|
    ensures Occupied(t[..k + 1]) == Occupied(t[..k]) + if t[k].hash != 0 then 1 else 0
    ensures Occupied(t[..k]) <= k
  {
    assert t[..k + 1][..k] == t[..k];
    OccupiedBound(t[..k]);
  }

  method RehashLoop(was: seq<Entry>, cap: nat) returns (t: seq<Entry>)
    requires |was| < cap
    ensures t == Rehash(Blank(cap), was, 0)
  {
    t := Blank(cap);
    OccupiedBlank(t);
    assert Occupied(was[..0]) == 0;
    hide Placed, Content, Put, Occupied;
    for k := 0 to |was|
      invariant |t| == cap && Placed(t) && Occupied(t) == Occupied(was[..k])
      invariant Rehash(t, was, k) == Rehash(Blank(cap), was, 0)
    {
      OccupiedStep(was, k);
      if was[k].hash != 0 {
        PutKeeps(t, was[k]);
        t := PutLoop(t, was[k]);
      }
    }
  }

  // ---- Searching ----

  // Does the memory at this offset start with the needle?
  predicate Matches(bytes: seq<char>, offset: nat, needle: string) {
    offset + |needle| <= |bytes| && bytes[offset..offset + |needle|] == needle
  }

  // str_hash_find() from slot i, looking at n slots
  function FindFrom(bytes: seq<char>, t: seq<Entry>, hash: nat, needle: string, i: nat, n: nat): (r: Option<nat>)
    requires i < |t|
    decreases n
  {
    if n == 0 || t[i].hash == 0 then None
    else if t[i].hash == hash && Matches(bytes, t[i].offset, needle) then Some(t[i].offset)
    else FindFrom(bytes, t, hash, needle, Next(i, |t|), n - 1)
  }

  function Find(bytes: seq<char>, ix: Index, hash: nat, needle: string): (r: Option<nat>) {
    if ix.table == [] then None
    else FindFrom(bytes, ix.table, hash, needle, hash % |ix.table|, |ix.table|)
  }

  lemma {:induction false} FindFromSound(bytes: seq<char>, t: seq<Entry>, hash: nat, needle: string, i: nat, n: nat)
    requires i < |t|
    ensures var r := FindFrom(bytes, t, hash, needle, i, n);
            r.Some? ==> hash != 0 && Entry(hash, r.value) in Content(t) && Matches(bytes, r.value, needle)
    decreases n
  {
    if n > 0 && t[i].hash != 0 {
      assert t[i] in t;
      FindFromSound(bytes, t, hash, needle, Next(i, |t|), n - 1);
    }
  }

  lemma {:induction false} FindFromHits(bytes: seq<char>, t: seq<Entry>, hash: nat, needle: string, i: nat, j: nat, n: nat)
    requires i < |t| && j < |t| && OnPath(t, i, j, n)
    requires t[j].hash == hash && Matches(bytes, t[j].offset, needle)
    ensures FindFrom(bytes, t, hash, needle, i, n).Some?
    decreases n
  {
    if i != j {
      FindFromHits(bytes, t, hash, needle, Next(i, |t|), j, n - 1);
    }
  }

  /** The search is exact: it answers with an indexed string that starts with the needle
      and has this hash, and it answers whenever there is one. */
  lemma FindExact(bytes: seq<char>, ix: Index, hash: nat, needle: string)
    requires Valid(ix)
    ensures var r := Find(bytes, ix, hash, needle);
            r.Some? ==> hash != 0 && Entry(hash, r.value) in Content(ix.table) && Matches(bytes, r.value, needle)
    ensures Find(bytes, ix, hash, needle).None? ==>
              forall o: nat :: hash != 0 && Entry(hash, o) in Content(ix.table) ==> !Matches(bytes, o, needle)
  {
    if ix.table != [] {
      FindFromSound(bytes, ix.table, hash, needle, hash % |ix.table|, |ix.table|);
    }
    forall o: nat | hash != 0 && Entry(hash, o) in Content(ix.table) && Matches(bytes, o, needle)
      ensures Find(bytes, ix, hash, needle).Some?
    {
      var j :| 0 <= j < |ix.table| && ix.table[j] == Entry(hash, o);
      FindFromHits(bytes, ix.table, hash, needle, hash % |ix.table|, j, |ix.table|);
    }
  }

  method FindLoop(bytes: seq<char>, ix: Index, hash: nat, needle: string) returns (r: Option<nat>)
    requires Valid(ix)
    ensures r == Find(bytes, ix, hash, needle)
  {
    if ix.table == [] {
      return None;
    }
    LooseHasRoom(ix);
    ghost var e := EmptySlot(ix.table);
    r := FindProbe(bytes, ix.table, hash, needle, e);
  }

  // The probing loop; the empty slot e is what ends it
  method FindProbe(bytes: seq<char>, t: seq<Entry>, hash: nat, needle: string, ghost e: nat) returns (r: Option<nat>)
    requires e < |t| && t[e].hash == 0
    ensures r == FindFrom(bytes, t, hash, needle, hash % |t|, |t|)
  {
    hide Matches;
    var i := hash % |t|;
    ghost var n := |t|;
    while t[i].hash != 0
      invariant 0 <= i < |t| && Distance(i, e, |t|) < n
      invariant FindFrom(bytes, t, hash, needle, i, n) == FindFrom(bytes, t, hash, needle, hash % |t|, |t|)
      decreases n
    {
      if t[i].hash == hash && Matches(bytes, t[i].offset, needle) {
        return Some(t[i].offset);
      }
      i := if i + 1 < |t| then i + 1 else 0;
      n := n - 1;
    }
    return None;
  }
}
