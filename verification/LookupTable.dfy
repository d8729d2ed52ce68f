// The hash index in place: an array of which the first `size` entries are in use
// (src/lookup-table.c).
module LookupTables {
  import opened Records
  import opened Lookup

  class LookupTable {
    var entries: array<Entry>
    var size: nat

    ghost predicate Valid()
      reads this, entries
    {
      size <= entries.Length && Sorted(entries[..size]) && DistinctIds(entries[..size])
    }

    ghost function Contents(): seq<Entry>
      requires size <= entries.Length
      reads this, entries
    {
      entries[..size]
    }

    constructor (capacity: nat)
      ensures Valid() && fresh(entries) && entries.Length == capacity && Contents() == []
    {
      entries := new Entry[capacity](i => Entry(0, 0));
      size := 0;
    }

    /** lookup_insert(): the tail moves up by one entry. Several entries may share a hash. */
    method Insert(id: nat, hash: nat)
      requires Valid() && size < entries.Length
      requires forall i :: 0 <= i < size ==> entries[i].id != id
      modifies this`size, entries
      ensures entries == old(entries) && size == old(size) + 1
      ensures Contents() == Inserted(old(Contents()), Entry(id, hash))
      ensures Valid()
    {
      ghost var was := Contents();
      var found, pos := BinSearch(entries[..size], hash);
      InsertedSorted(was, Entry(id, hash));
      InsertedDistinct(was, Entry(id, hash));
      hide Search, Sorted, DistinctIds;
      OpenGap(entries, pos, size);
      entries[pos] := Entry(id, hash);
      size := size + 1;
      assert entries[..size] == entries[..pos] + [entries[pos]] + entries[pos + 1..size];
    }

    /** lookup_remove(): the entry goes, the tail moves down, the place left over is zeroed.
        An entry that is not there changes nothing. */
    method Remove(id: nat, hash: nat)
      requires Valid()
      modifies this`size, entries
      ensures entries == old(entries) && size <= old(size)
      ensures Contents() == if Entry(id, hash) in old(Contents()) then Kept(old(Contents()), {id}) else old(Contents())
      ensures Valid()
    {
      ghost var was := Contents();
      KeptSorted(was, {id});
      KeptDistinct(was, {id});
      var pos := Locate(entries[..size], id, hash);
      if pos.Some? {
        KeptOne(was, pos.value);
        hide Kept, Sorted, DistinctIds;
        CloseGap(entries, pos.value, size);
        size := size - 1;
      }
    }
  }

  // The entry with this ID and hash, looked for among the entries of that hash
  method Locate(t: seq<Entry>, id: nat, hash: nat) returns (r: Option<nat>)
    requires Sorted(t)
    ensures r.Some? ==> r.value < |t| && t[r.value] == Entry(id, hash)
    ensures r.None? ==> Entry(id, hash) !in t
  {
    var found, pos := BinSearch(t, hash);
    if !found {
      SearchMiss(t, hash, 0, |t|);
      return None;
    }
    pos := FirstOf(t, hash, pos);
    while pos < |t| && t[pos].hash == hash
      invariant 0 <= pos <= |t|
      invariant forall i :: 0 <= i < pos ==> t[i] != Entry(id, hash)
    {
      if t[pos].id == id {
        return Some(pos);
      }
      pos := pos + 1;
    }
    return None;
  }

  method OpenGap(entries: array<Entry>, pos: nat, size: nat)
    requires pos <= size < entries.Length
    modifies entries
    ensures entries[..pos] == old(entries[..pos]) && entries[pos + 1..size + 1] == old(entries[pos..size])
  {
    ghost var was := entries[..size];
    var i := size;
    while i > pos
      invariant pos <= i <= size && entries[..i] == was[..i] && entries[i + 1..size + 1] == was[i..]
    {
      assert entries[i - 1] == entries[..i][i - 1];
      entries[i] := entries[i - 1];
      i := i - 1;
      assert was[i..] == [was[i]] + was[i + 1..];
    }
  }

  method CloseGap(entries: array<Entry>, pos: nat, size: nat)
    requires pos < size <= entries.Length
    modifies entries
    ensures entries[..size - 1] == old(entries[..pos]) + old(entries[pos + 1..size])
    ensures entries[size - 1] == Entry(0, 0) && entries[size..] == old(entries[size..])
  {
    ghost var was := entries[..];
    var i := pos;
    while i < size - 1
      invariant pos <= i <= size - 1
      invariant entries[..i] == was[..pos] + was[pos + 1..i + 1] && entries[i..] == was[i..]
    {
      assert entries[i + 1] == entries[i..][1] == was[i + 1];
      entries[i] := entries[i + 1];
      i := i + 1;
    }
    entries[size - 1] := Entry(0, 0);
  }
}
