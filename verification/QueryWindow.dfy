// Where the queries live: a physical array of which only a window is in use, the lazy
// compaction of that window, and the lookup of a query by its dnsmasq ID
// (src/shmem.c, src/gc.c, src/datastructure.c, src/database/query-table.c).
module QueryWindow {
  import opened Records

  const MAXITER := 1000
  const QUERY_ID_MAP_SIZE := 4096
  const UINT_RANGE := 0x1_0000_0000

  // A record of the array: all zero, or a query with its magic byte set
  datatype Cell = Blank | Full(query: Query)

  // One line of the direct-mapped ID cache
  datatype MapLine = MapLine(id: int, index: int)

  // ---- What the window stands for ----

  ghost function Queries(mem: seq<Cell>): (r: seq<Query>)
    requires forall i :: 0 <= i < |mem| ==> mem[i].Full?
    ensures |r| == |mem| && forall i :: 0 <= i < |mem| ==> r[i] == mem[i].query
  {
    seq(|mem|, i requires 0 <= i < |mem| => mem[i].query)
  }

  /** The newest of the last MAXITER queries that carries this ID, -1 if none does. */
  ghost function Scan(qs: seq<Query>, id: int): (r: int)
    ensures -1 <= r < |qs|
    ensures r >= 0 ==> qs[r].id == id
    ensures forall i :: r < i < |qs| && |qs| - 1000 <= i ==> qs[i].id != id
  {
    ScanFrom(qs, id, |qs|)
  }

  // The scan, below position n
  ghost function ScanFrom(qs: seq<Query>, id: int, n: nat): (r: int)
    requires n <= |qs|
    ensures -1 <= r < n
    ensures r >= 0 ==> qs[r].id == id && |qs| - MAXITER <= r
    ensures forall i :: r < i < n && |qs| - MAXITER <= i ==> qs[i].id != id
  {
    if n == 0 || n - 1 < |qs| - MAXITER then -1
    else if qs[n - 1].id == id then n - 1
    else ScanFrom(qs, id, n - 1)
  }

  ghost predicate UniqueIds(qs: seq<Query>) {
    forall i, j :: 0 <= i < j < |qs| ==> qs[i].id != qs[j].id
  }

  method MoveDown(mem: array<Cell>, offset: nat, count: nat)
    requires offset + count <= mem.Length
    modifies mem
    ensures mem[..count] == old(mem[offset..offset + count]) && mem[count..] == old(mem[count..])
  {
    ghost var was := mem[..];
    var i := 0;
    while i < count
      invariant 0 <= i <= count
      invariant mem[..i] == was[offset..offset + i] && mem[i..] == was[i..]
    {
      assert mem[offset + i] == mem[i..][offset];
      mem[i] := mem[offset + i];
      assert mem[..i + 1] == mem[..i] + [mem[i]];
      i := i + 1;
    }
  }

  method Zero(mem: array<Cell>, from: nat, n: nat)
    requires from + n <= mem.Length
    modifies mem
    ensures mem[..from] == old(mem[..from]) && mem[from + n..] == old(mem[from + n..])
    ensures forall j :: from <= j < from + n ==> mem[j].Blank?
  {
    for i := from to from + n
      invariant forall j :: from <= j < i ==> mem[j].Blank?
      invariant mem[..from] == old(mem[..from]) && mem[i..] == old(mem[i..])
    {
      mem[i] := Blank;
    }
  }

  /** memmove() of the window to the front, then memset() of what it left behind */
  method Shift(mem: array<Cell>, offset: nat, count: nat)
    requires offset + count <= mem.Length
    requires forall i :: offset + count <= i < mem.Length ==> mem[i].Blank?
    modifies mem
    ensures mem[..count] == old(mem[offset..offset + count])
    ensures forall i :: count <= i < mem.Length ==> mem[i].Blank?
  {
    ghost var was := mem[..];
    MoveDown(mem, offset, count);
    assert forall i :: offset + count <= i < mem.Length ==> mem[i] == mem[count..][i - count] == was[count..][i - count];
    ghost var mid := mem[..];
    Zero(mem, count, offset);
    assert forall i :: offset + count <= i < mem.Length ==> mem[i] == mem[count + offset..][i - count - offset] == mid[i];
  }

  class Window {
    var mem: array<Cell>
    var offset: nat
    var count: nat
    var removed: nat
    var lines: seq<MapLine>
    const step: nat

    // Inside the window every record is a query, behind it every record is zero
    ghost predicate Valid()
      reads this, mem
    {
      && 2 <= step && 0 < mem.Length && offset + count <= mem.Length
      && (forall i :: offset <= i < offset + count ==> mem[i].Full?)
      && (forall i :: offset + count <= i < mem.Length ==> mem[i].Blank?)
      && |lines| == QUERY_ID_MAP_SIZE && removed < UINT_RANGE
    }

    /** The logical query table, oldest query first. */
    ghost function Contents(): (r: seq<Query>)
      requires Valid()
      reads this, mem
      ensures |r| == count
    {
      Queries(mem[offset..offset + count])
    }

    constructor (size: nat, pagesize: nat)
      requires 0 < size && 2 <= pagesize
      ensures Valid() && fresh(mem) && Contents() == [] && removed == 0
    {
      mem := new Cell[size](i => Blank);
      offset, count, removed := 0, 0, 0;
      step := pagesize;
      lines := seq(QUERY_ID_MAP_SIZE, i => MapLine(0, 0));
    }

    /** _getQuery() with the magic check: exactly the logical table, and NULL past it. */
    method GetQuery(i: nat) returns (r: Option<Query>)
      requires Valid()
      ensures r == if i < count then Some(Contents()[i]) else None
    {
      var phys := i + offset;
      if phys >= mem.Length {
        return None;
      }
      if mem[phys].Blank? {
        return None;
      }
      return Some(mem[phys].query);
    }

    // ---- Room for the next query ----

    method Compact()
      requires Valid() && 0 < offset
      modifies this, mem
      ensures Valid() && mem == old(mem) && offset == 0 && count == old(count) && removed == old(removed)
      ensures Contents() == old(Contents())
    {
      ghost var was := mem[offset..offset + count];
      Shift(mem, offset, count);
      assert forall i :: 0 <= i < count ==> mem[i] == mem[..count][i] == was[i] && was[i].Full?;
      assert forall i :: 0 + count <= i < mem.Length ==> mem[i].Blank?;
      ClearMap();
      offset := 0;
    }

    /** queryIDMap_clear() */
    method ClearMap()
      modifies this`lines
      ensures |lines| == QUERY_ID_MAP_SIZE
    {
      lines := seq(QUERY_ID_MAP_SIZE, i => MapLine(0, 0));
    }

    // enlarge_shmem_struct(): the file grows, and what is added reads as zero
    method Enlarge()
      requires Valid()
      modifies this
      ensures Valid() && fresh(mem) && mem.Length == old(mem.Length) + step
      ensures offset == old(offset) && count == old(count) && removed == old(removed)
      ensures Contents() == old(Contents())
    {
      var bigger := new Cell[mem.Length + step](i => Blank);
      forall i | 0 <= i < mem.Length {
        bigger[i] := mem[i];
      }
      assert bigger[offset..offset + count] == mem[offset..offset + count];
      mem := bigger;
    }

    /** The queries part of shm_ensure_size(), which every lock runs: the logical table is
        unchanged and the next query has a place. */
    method EnsureSize()
      requires Valid()
      modifies this, mem
      ensures Valid() && (mem == old(mem) || fresh(mem))
      ensures Contents() == old(Contents()) && removed == old(removed)
      ensures offset + count < mem.Length - 1
    {
      if count + offset >= mem.Length - 1 {
        if offset > 0 {
          Compact();
        }
        if count >= mem.Length - 1 {
          Enlarge();
        }
      }
    }

    // ---- Adding and removing ----

    /** The storing part of _Lorentz_new_query(), in a lock round that began with
        EnsureSize(): the query goes to the end of the logical table. */
    method Append(q: Query)
      requires Valid() && offset + count < mem.Length
      modifies this, mem
      ensures Valid() && mem == old(mem) && offset == old(offset) && removed == old(removed)
      ensures Contents() == old(Contents()) + [q]
    {
      mem[offset + count] := Full(q);
      InsertLine(q.id, count);
      count := count + 1;
      assert mem[offset..offset + count] == old(mem[offset..offset + count]) + [Full(q)];
    }

    /** A hook changes a query in place. */
    method Update(i: nat, q: Query)
      requires Valid() && i < count
      modifies mem
      ensures Valid() && Contents() == old(Contents())[i := q]
    {
      mem[i + offset] := Full(q);
      assert mem[offset..offset + count] == old(mem[offset..offset + count])[i := Full(q)];
    }

    /** queryIDMap_insert(): the line is the low twelve bits of the ID */
    method InsertLine(id: int, index: int)
      requires |lines| == QUERY_ID_MAP_SIZE
      modifies this`lines
      ensures lines == old(lines)[id % QUERY_ID_MAP_SIZE := MapLine(id, index)]
    {
      lines := lines[id % QUERY_ID_MAP_SIZE := MapLine(id, index)];
    }

    /** The memory part of runGC(): the window starts n queries later, nothing is moved. */
    method RemovePrefix(n: nat)
      requires Valid() && n <= count
      modifies this
      ensures Valid() && mem == old(mem) && removed == (old(removed) + n) % UINT_RANGE
      ensures Contents() == old(Contents())[n..]
    {
      if n > 0 {
        offset := offset + n;
        count := count - n;
        removed := (removed + n) % UINT_RANGE;
        ClearMap();
      }
      assert mem[offset..offset + count] == old(mem[offset..offset + count])[n..];
    }

    // ---- Finding a query by ID ----

    // The reverse scan; in an empty store it looks at one zero record and stops
    method ScanBack(id: int) returns (r: int)
      requires Valid()
      ensures r == Scan(Contents(), id)
    {
      hide Valid, Contents;
      var until := if count > MAXITER then count - MAXITER else 0;
      var i := if count > 0 then count - 1 else 0;
      while i >= until
        invariant 0 <= i && i + 1 >= until
        invariant count > 0 ==> i < count && Scan(Contents(), id) == ScanFrom(Contents(), id, i + 1)
        invariant count == 0 ==> i == 0
        decreases i
      {
        var query := GetQuery(i);
        if query.Some? && query.value.id == id {
          return i;
        }
        if i == 0 {
          break;
        }
        i := i - 1;
      }
      return -1;
    }

    /** findQueryID(). Whatever the map holds: a hit has the ID, a miss means the last
        MAXITER queries do not have it, and if IDs are unique the map changes no answer
        of the scan. */
    method FindQueryID(id: int) returns (r: int)
      requires Valid()
      ensures -1 <= r < count
      ensures r >= 0 ==> Contents()[r].id == id
      ensures r == -1 ==> Scan(Contents(), id) == -1
      ensures UniqueIds(Contents()) && Scan(Contents(), id) >= 0 ==> r == Scan(Contents(), id)
    {
      var line := lines[id % QUERY_ID_MAP_SIZE];
      hide Valid, Contents;
      if line.id == id && 0 <= line.index < count {
        var query := GetQuery(line.index);
        if query.Some? && query.value.id == id {
          return line.index;
        }
      }
      r := ScanBack(id);
    }

    /** get_snapshot_query(): an index taken when `before` queries had been removed */
    method GetSnapshotQuery(index: nat, before: nat) returns (r: Option<Query>)
      requires Valid() && before < UINT_RANGE
      ensures r == Rebased(Contents(), index, (removed - before) % UINT_RANGE)
    {
      var shift := (removed - before) % UINT_RANGE;
      if index < shift {
        return None;
      }
      r := GetQuery(index - shift);
    }
  }

  ghost function Rebased(qs: seq<Query>, index: nat, shift: nat): (r: Option<Query>)
  {
    if index < shift || index - shift >= |qs| then None else Some(qs[index - shift])
  }

  // ---- Over whole runs ----

  // What can happen to the table while a thread holds an index outside the lock
  datatype Op = Push(query: Query) | Change(index: nat, query: Query) | Remove(n: nat)

  // The logical table and the number of queries ever removed
  datatype Table = Table(queries: seq<Query>, removed: nat)

  ghost function Apply(t: Table, op: Op): Table {
    match op
    case Push(q) => t.(queries := t.queries + [q])
    case Change(i, q) =>
      if i < |t.queries| && q.id == t.queries[i].id then t.(queries := t.queries[i := q]) else t
    case Remove(n) =>
      if n <= |t.queries| then Table(t.queries[n..], t.removed + n) else t
  }

  ghost function Run(t: Table, ops: seq<Op>): Table
    decreases |ops|
  {
    if ops == [] then t else Run(Apply(t, ops[0]), ops[1..])
  }

  /** An index k taken in table t names, after any run, the same query if that query is
      still there, and nothing if it was removed. */
  lemma {:induction false} RunsRebase(t: Table, ops: seq<Op>, k: nat)
    requires k < |t.queries|
    ensures var u := Run(t, ops);
            && t.removed <= u.removed
            && var r := Rebased(u.queries, k, u.removed - t.removed);
               if k < u.removed - t.removed then r.None? else r.Some? && r.value.id == t.queries[k].id
    decreases |ops|
  {
    if ops != [] {
      var u := Apply(t, ops[0]);
      var n := u.removed - t.removed;
      if n <= k {
        RunsRebase(u, ops[1..], k - n);
      } else {
        RemovedGrows(u, ops[1..]);
      }
    }
  }

  lemma {:induction false} RemovedGrows(t: Table, ops: seq<Op>)
    ensures t.removed <= Run(t, ops).removed
    decreases |ops|
  {
    if ops != [] {
      RemovedGrows(Apply(t, ops[0]), ops[1..]);
    }
  }

  /** The program keeps the number of removed queries in 32 bits. The rebased index is the
      exact one as long as fewer than 2^32 queries were removed since the snapshot. */
  lemma WrappedShift(before: nat, now: nat)
    requires before <= now
    ensures (now % UINT_RANGE - before % UINT_RANGE) % UINT_RANGE == now - before <==> now - before < UINT_RANGE
  {
    var d := now - before;
    assert now == before + d;
    WrapDifference(before, d);
  }

  lemma WrapDifference(a: nat, d: nat)
    ensures ((a + d) % UINT_RANGE - a % UINT_RANGE) % UINT_RANGE == d % UINT_RANGE
  {
    var n := UINT_RANGE;
    var qa, qs, qd := a / n, (a + d) / n, d / n;
    assert (a + d) % n - a % n == d - n * (qs - qa);
    assert (a + d) % n - a % n == d % n + n * (qd - qs + qa);
    var k := qd - qs + qa;
    assert 0 <= d % n < n;
  }
}
