// The sorted hash index behind every table of the store (src/lookup-table.c).
// Entries are ordered by hash; several entries may share one.
module Lookup {

  datatype Entry = Entry(id: nat, hash: nat)

  ghost predicate Sorted(t: seq<Entry>) {
    forall i, j :: 0 <= i < j < |t| ==> t[i].hash <= t[j].hash
  }

  // No ID is indexed twice
  ghost predicate DistinctIds(t: seq<Entry>) {
    forall i, j :: 0 <= i < j < |t| ==> t[i].id != t[j].id
  }

  /** What binsearch() computes on the window [base, base + size) of the table. */
  function Search(t: seq<Entry>, hash: nat, base: nat, size: nat): (r: (bool, nat))
    requires base + size <= |t|
    ensures base <= r.1 <= base + size
    ensures r.0 ==> r.1 < base + size && t[r.1].hash == hash
    decreases size
  {
    if size == 0 then (false, base)
    else
      var mid := size / 2;
      var at := base + mid;
      if hash == t[at].hash then (true, at)
      else if size == 1 then (false, if hash > t[at].hash then at + 1 else at)
      else if hash < t[at].hash then Search(t, hash, base, mid)
      else Search(t, hash, at, size - mid)
  }

  // A miss says that the hash is absent and where it belongs
  lemma {:induction false} SearchMiss(t: seq<Entry>, hash: nat, base: nat, size: nat)
    requires Sorted(t) && base + size <= |t|
    requires Splits(t, hash, base, base + size)
    requires !Search(t, hash, base, size).0
    ensures Splits(t, hash, Search(t, hash, base, size).1, Search(t, hash, base, size).1)
    decreases size
  {
    hide *;
    if size > 1 {
      SearchNarrows(t, hash, base, size);
      var mid := size / 2;
      if hash < t[base + mid].hash {
        SearchMiss(t, hash, base, mid);
      } else {
        SearchMiss(t, hash, base + mid, size - mid);
      }
    } else {
      SearchStops(t, hash, base, size);
    }
  }

  lemma SearchStops(t: seq<Entry>, hash: nat, base: nat, size: nat)
    requires base + size <= |t| && size <= 1 && Splits(t, hash, base, base + size)
    requires !Search(t, hash, base, size).0
    ensures Splits(t, hash, Search(t, hash, base, size).1, Search(t, hash, base, size).1)
  {
  }

  // One turn of the search
  lemma SearchNarrows(t: seq<Entry>, hash: nat, base: nat, size: nat)
    requires Sorted(t) && base + size <= |t| && size > 1
    requires Splits(t, hash, base, base + size)
    requires !Search(t, hash, base, size).0
    ensures var mid := size / 2;
            if hash < t[base + mid].hash
            then Search(t, hash, base, size) == Search(t, hash, base, mid) && Splits(t, hash, base, base + mid)
            else Search(t, hash, base, size) == Search(t, hash, base + mid, size - mid) && Splits(t, hash, base + mid, base + size)
  {
  }

  // Hashes before position a are smaller, those from position b on are larger
  ghost predicate Splits(t: seq<Entry>, hash: nat, a: nat, b: nat) {
    && (forall i :: 0 <= i < |t| && i < a ==> t[i].hash < hash)
    && (forall i :: b <= i < |t| ==> t[i].hash > hash)
  }

  method BinSearch(t: seq<Entry>, hash: nat) returns (found: bool, pos: nat)
    ensures (found, pos) == Search(t, hash, 0, |t|)
  {
    var base: nat, size: nat := 0, |t|;
    pos := base;
    while size > 0
      invariant base + size <= |t|
      invariant size == 0 ==> pos == base
      invariant Search(t, hash, base, size) == Search(t, hash, 0, |t|)
      decreases size
    {
      var mid := size / 2;
      pos := base + mid;
      if hash == t[pos].hash {
        return true, pos;
      } else if size == 1 {
        if hash > t[pos].hash {
          pos := pos + 1;
        }
        return false, pos;
      } else if hash < t[pos].hash {
        size := mid;
      } else {
        base, size := pos, size - mid;
      }
    }
    found := false;
  }

  // ---- Insert ----

  function Inserted(t: seq<Entry>, e: Entry): (r: seq<Entry>)
  {
    var pos := Search(t, e.hash, 0, |t|).1;
    t[..pos] + [e] + t[pos..]
  }

  lemma InsertedSorted(t: seq<Entry>, e: Entry)
    requires Sorted(t)
    ensures Sorted(Inserted(t, e))
  {
    PlaceFits(t, e.hash);
    hide Search;
    var pos := Search(t, e.hash, 0, |t|).1;
    var r := Inserted(t, e);
    forall i, j | 0 <= i < j < |r|
      ensures r[i].hash <= r[j].hash
    {
      if i < pos < j {
        assert r[i] == t[i] && r[j] == t[j - 1];
      }
    }
  }

  // The place the search finds is one where the hash belongs
  lemma PlaceFits(t: seq<Entry>, hash: nat)
    requires Sorted(t)
    ensures var pos := Search(t, hash, 0, |t|).1;
            && (forall i :: 0 <= i < pos ==> t[i].hash <= hash)
            && (forall i :: pos <= i < |t| ==> t[i].hash >= hash)
  {
    if !Search(t, hash, 0, |t|).0 {
      hide Search;
      SearchMiss(t, hash, 0, |t|);
    }
  }

  lemma InsertedDistinct(t: seq<Entry>, e: Entry)
    requires DistinctIds(t)
    requires forall i :: 0 <= i < |t| ==> t[i].id != e.id
    ensures DistinctIds(Inserted(t, e))
    ensures forall x :: x in Inserted(t, e) <==> x == e || x in t
  {
    var pos := Search(t, e.hash, 0, |t|).1;
    var r := Inserted(t, e);
    assert forall i :: 0 <= i < pos ==> r[i] == t[i];
    assert forall i :: pos < i < |r| ==> r[i] == t[i - 1];
    assert t == t[..pos] + t[pos..];
    forall i, j | 0 <= i < j < |r|
      ensures r[i].id != r[j].id
    {
      if i < pos {
        if j > pos {
          assert t[i].id != t[j - 1].id;
        }
      }
    }
  }

  // ---- Compaction: drop the entries of a set of IDs, keep the order ----

  function Kept(t: seq<Entry>, dead: set<nat>): (r: seq<Entry>)
  {
    if t == [] then []
    else
      var rest := Kept(t[..|t| - 1], dead);
      if t[|t| - 1].id in dead then rest else rest + [t[|t| - 1]]
  }

  lemma {:induction false} KeptMembers(t: seq<Entry>, dead: set<nat>)
    ensures forall e :: e in Kept(t, dead) <==> e in t && e.id !in dead
    ensures |Kept(t, dead)| <= |t|
  {
    if t != [] {
      KeptMembers(t[..|t| - 1], dead);
      assert t == t[..|t| - 1] + [t[|t| - 1]];
    }
  }

  lemma {:induction false} KeptSorted(t: seq<Entry>, dead: set<nat>)
    requires Sorted(t)
    ensures Sorted(Kept(t, dead))
  {
    if t != [] {
      var front, last := t[..|t| - 1], t[|t| - 1];
      KeptSorted(front, dead);
      KeptMembers(front, dead);
      forall e | e in Kept(front, dead)
        ensures e.hash <= last.hash
      {
        var i :| 0 <= i < |front| && front[i] == e;
        assert t[i] == e;
      }
    }
  }

  lemma {:induction false} KeptDistinct(t: seq<Entry>, dead: set<nat>)
    requires DistinctIds(t)
    ensures DistinctIds(Kept(t, dead))
  {
    if t != [] {
      var front, last := t[..|t| - 1], t[|t| - 1];
      KeptDistinct(front, dead);
      KeptMembers(front, dead);
      forall e | e in Kept(front, dead)
        ensures e.id != last.id
      {
        var i :| 0 <= i < |front| && front[i] == e;
        assert t[i] == e;
      }
    }
  }

  // ---- Remove ----

  /** The first entry of a hash, given any entry of it. */
  method FirstOf(t: seq<Entry>, hash: nat, at: nat) returns (pos: nat)
    requires Sorted(t) && at < |t| && t[at].hash == hash
    ensures pos <= at && t[pos].hash == hash
    ensures forall i :: 0 <= i < pos ==> t[i].hash < hash
  {
    pos := at;
    while pos > 0 && t[pos - 1].hash == hash
      invariant 0 <= pos <= at && t[pos].hash == hash
    {
      pos := pos - 1;
    }
  }

  lemma {:induction false} KeptAll(t: seq<Entry>, dead: set<nat>)
    requires forall i :: 0 <= i < |t| ==> t[i].id !in dead
    ensures Kept(t, dead) == t
  {
    if t != [] {
      KeptAll(t[..|t| - 1], dead);
    }
  }

  lemma {:induction false} KeptOne(t: seq<Entry>, pos: nat)
    requires DistinctIds(t) && pos < |t|
    ensures Kept(t, {t[pos].id}) == t[..pos] + t[pos + 1..]
  {
    var front := t[..|t| - 1];
    var last := t[|t| - 1];
    if pos == |t| - 1 {
      KeptAll(front, {last.id});
      assert t[..pos] + t[pos + 1..] == front;
    } else {
      KeptOne(front, pos);
      assert last.id != t[pos].id;
      assert front[..pos] == t[..pos];
      assert front[pos + 1..] + [last] == t[pos + 1..];
    }
  }
}
