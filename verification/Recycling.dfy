// What a collection removes and what it keeps: which queries, which records and which IDs
// (src/gc.c:73-241, 410-570).
module Recycling {
  import opened Records
  import opened Lookup
  import opened Interning
  import opened OverTime
  import opened Blocking
  import opened Hashing
  import opened Store
  import opened Conservation
  import opened Collection

  // ---- The free list ----

  // Freed IDs are listed behind the ones that were there, as far as there is room
  ghost predicate Pushes(before: seq<nat>, after: seq<nat>, freed: set<nat>) {
    && before <= after
    && |after| == (if |before| + |freed| <= 65535 then |before| + |freed| else 65535)
    && (forall i :: |before| <= i < |after| ==> after[i] in freed)
    && (forall i, j :: |before| <= i < j < |after| ==> after[i] != after[j])
  }

  ghost function DeadIn(t: seq<Entry>, dead: set<nat>): set<nat> {
    set i | 0 <= i < |t| && t[i].id in dead :: t[i].id
  }

  lemma DeadInSnoc(t: seq<Entry>, dead: set<nat>)
    requires t != [] && DistinctIds(t)
    ensures var front, last := t[..|t| - 1], t[|t| - 1];
            && DistinctIds(front) && last.id !in DeadIn(front, dead)
            && DeadIn(t, dead) == if last.id in dead then DeadIn(front, dead) + {last.id} else DeadIn(front, dead)
  {
    var front, last := t[..|t| - 1], t[|t| - 1];
    assert forall i :: 0 <= i < |front| ==> front[i] == t[i];
    forall x | x in DeadIn(t, dead)
      ensures x in DeadIn(front, dead) || x == last.id
    {
      var i :| 0 <= i < |t| && t[i].id in dead && t[i].id == x;
      if i < |front| {
        assert front[i].id == x;
      }
    }
    forall x | x in DeadIn(front, dead)
      ensures x in DeadIn(t, dead) && x != last.id
    {
      var i :| 0 <= i < |front| && front[i].id in dead && front[i].id == x;
      assert t[i].id == x && t[|t| - 1].id == last.id;
    }
    if last.id in dead {
      assert t[|t| - 1].id in dead;
    }
  }

  lemma {:induction false} FreedIdsPush(free: seq<nat>, t: seq<Entry>, dead: set<nat>)
    requires |free| <= RECYCLE_ARRAY_LEN && DistinctIds(t)
    ensures Pushes(free, FreedIds(free, t, dead), DeadIn(t, dead))
  {
    if t == [] {
      assert DeadIn(t, dead) == {};
    } else {
      var front, last := t[..|t| - 1], t[|t| - 1];
      DeadInSnoc(t, dead);
      hide DeadIn, DistinctIds;
      FreedIdsPush(free, front, dead);
    }
  }

  lemma RecycledPushes<K, V>(t: Table<K, V>, dead: set<nat>, h: K -> nat)
    requires Interning.Valid(t, h) && forall id :: id in dead ==> id in t.live
    ensures Pushes(t.free, Recycled(t, dead).free, t.live.Keys - Recycled(t, dead).live.Keys)
  {
    hide Pushes;
    FreedIdsPush(t.free, t.lookup, dead);
    forall id | id in dead
      ensures id in DeadIn(t.lookup, dead)
    {
      IndexedAll(t, h, id);
    }
    assert DeadIn(t.lookup, dead) == dead;
    assert t.live.Keys - Recycled(t, dead).live.Keys == dead;
  }

  // ---- Counts and queries ----

  ghost predicate HasClient(qs: seq<Query>, c: nat) {
    exists i :: 0 <= i < |qs| && qs[i].clientID == c
  }

  ghost predicate HasDomain(qs: seq<Query>, d: nat) {
    exists i :: 0 <= i < |qs| && qs[i].domainID == d
  }

  ghost predicate HasCache(qs: seq<Query>, k: nat) {
    exists i :: 0 <= i < |qs| && qs[i].cacheID == k
  }

  lemma CountIff(qs: seq<Query>, k: Tally)
    ensures Count(qs, k) > 0 <==> exists i :: 0 <= i < |qs| && Hits(qs[i], k)
  {
    if Count(qs, k) > 0 {
      var i := CountWitness(qs, k);
    }
    if i :| 0 <= i < |qs| && Hits(qs[i], k) {
      CountPositive(qs, i, k);
    }
  }

  lemma CountedIff(s: State)
    requires Shaped(s) && Conserved(s, 0)
    ensures forall c :: c in s.clients.live ==> (s.clients.live[c].data.count > 0 <==> HasClient(s.queries, c))
    ensures forall d :: d in s.domains.live ==> (s.domains.live[d].data.count > 0 <==> HasDomain(s.queries, d))
    ensures forall k :: k in s.caches.live ==> (s.caches.live[k].data.refcount > 0 <==> HasCache(s.queries, k))
  {
    hide Count, Aligned;
    assert s.queries[0..] == s.queries;
    forall c | c in s.clients.live
      ensures s.clients.live[c].data.count > 0 <==> HasClient(s.queries, c)
    {
      CountIff(s.queries, OfClient(c));
      assert Tallied(s, OfClient(c)) == Count(s.queries[0..], OfClient(c));
    }
    forall d | d in s.domains.live
      ensures s.domains.live[d].data.count > 0 <==> HasDomain(s.queries, d)
    {
      CountIff(s.queries, OfDomain(d));
      assert Tallied(s, OfDomain(d)) == Count(s.queries[0..], OfDomain(d));
    }
    forall k | k in s.caches.live
      ensures s.caches.live[k].data.refcount > 0 <==> HasCache(s.queries, k)
    {
      CountIff(s.queries, OfCache(k));
      assert Tallied(s, OfCache(k)) == Count(s.queries[0..], OfCache(k));
    }
  }

  // ---- Records ----

  /** Of the records of s exactly those are left that a query of qs refers to. A domain also
      stays if it held a CNAME reference or was last queried less than a day ago. What is left is
      as it was, save for the references the freed DNS cache records give back. */
  ghost predicate KeepsUsed(s: State, qs: seq<Query>, r: State, now: real) {
    && (forall c :: c in r.clients.live <==> c in s.clients.live && HasClient(qs, c))
    && (forall k :: k in r.caches.live <==> k in s.caches.live && HasCache(qs, k))
    && (forall d :: d in r.domains.live <==>
         && d in s.domains.live
         && (|| HasDomain(qs, d)
             || s.domains.live[d].data.cnameRefs > 0
             || now - s.domains.live[d].data.lastQuery < 86400.0))
    && (forall c :: c in r.clients.live ==> r.clients.live[c].key == s.clients.live[c].key)
    && (forall k :: k in r.caches.live ==> r.caches.live[k] == s.caches.live[k])
    && (forall d :: d in r.domains.live ==>
         && r.domains.live[d].key == s.domains.live[d].key
         && r.domains.live[d].data.lastQuery == s.domains.live[d].data.lastQuery
         && r.domains.live[d].data.cnameRefs ==
              s.domains.live[d].data.cnameRefs - |set k | k in s.caches.live && k !in r.caches.live && s.caches.live[k].data.cname == d|)
  }

  // The IDs of the freed records can be given out again
  ghost predicate Frees(s: State, r: State) {
    && Pushes(s.clients.free, r.clients.free, s.clients.live.Keys - r.clients.live.Keys)
    && Pushes(s.domains.free, r.domains.free, s.domains.live.Keys - r.domains.live.Keys)
    && Pushes(s.caches.free, r.caches.free, s.caches.live.Keys - r.caches.live.Keys)
  }

  // The tables recycling leaves, each from the table before
  lemma RecycledTables(s: State, now: real)
    ensures var r := RecycleAll(s, now);
            && r.clients == Recycled(s.clients, DeadClients(s))
            && r.caches == Recycled(s.caches, DeadCaches(s))
            && r.domains.free == Recycled(s.domains, DeadDomains(s, now)).free
            && r.domains.live.Keys == Recycled(s.domains, DeadDomains(s, now)).live.Keys
            && (forall d :: d in r.domains.live ==>
                 r.domains.live[d] == s.domains.live[d].(data := s.domains.live[d].data.(
                   cnameRefs := s.domains.live[d].data.cnameRefs - |HoldersIn(s.caches.live, DeadCaches(s), d)|)))
  {
    hide FreedIds, Kept, HoldersIn;
    var s1 := WithoutClients(s);
    var s2 := WithoutDomains(s1, now);
    assert DeadDomains(s1, now) == DeadDomains(s, now) && DeadCaches(s2) == DeadCaches(s);
  }

  /** recycle() frees exactly the records nobody needs, and lists their IDs for reuse. */
  lemma RecycleEffect(s: State, now: real)
    requires InvFrom(s, 0)
    ensures var r := RecycleAll(s, now); r.queries == s.queries && KeepsUsed(s, s.queries, r, now) && Frees(s, r)
  {
    var r := RecycleAll(s, now);
    RecycleKeeps(s, now);
    RecycledTables(s, now);
    hide RecycleAll;
    RecycleUses(s, r, now);
    RecycleFrees(s, r, now);
  }

  lemma RecycleUses(s: State, r: State, now: real)
    requires Shaped(s) && Conserved(s, 0)
    requires r.clients.live == Recycled(s.clients, DeadClients(s)).live
    requires r.caches.live == Recycled(s.caches, DeadCaches(s)).live
    requires r.domains.live.Keys == Recycled(s.domains, DeadDomains(s, now)).live.Keys
    requires forall d :: d in r.domains.live ==>
               r.domains.live[d] == s.domains.live[d].(data := s.domains.live[d].data.(
                 cnameRefs := s.domains.live[d].data.cnameRefs - |HoldersIn(s.caches.live, DeadCaches(s), d)|))
    ensures KeepsUsed(s, s.queries, r, now)
  {
    CountedIff(s);
    hide Conserved, Shaped, HasClient, HasDomain, HasCache, FreedIds, Kept;
    forall d | d in r.domains.live
      ensures HoldersIn(s.caches.live, DeadCaches(s), d) == set k | k in s.caches.live && k !in r.caches.live && s.caches.live[k].data.cname == d
    {
    }
  }

  lemma RecycleFrees(s: State, r: State, now: real)
    requires Tables(s)
    requires r.clients == Recycled(s.clients, DeadClients(s)) && r.caches == Recycled(s.caches, DeadCaches(s))
    requires r.domains.free == Recycled(s.domains, DeadDomains(s, now)).free
    requires r.domains.live.Keys == Recycled(s.domains, DeadDomains(s, now)).live.Keys
    ensures Frees(s, r)
  {
    hide Interning.Valid, Recycled, Pushes;
    RecycledPushes(s.clients, DeadClients(s), HashStr);
    RecycledPushes(s.domains, DeadDomains(s, now), HashStr);
    RecycledPushes(s.caches, DeadCaches(s), HashKey);
  }

  // ---- The two rounds ----

  // Moving the window changes slots and the clients' counts in them, nothing else
  lemma MoveOnly(s: State, mintime: int)
    requires Shaped(s)
    ensures var r := MoveOverTime(s, mintime);
            && r.queries == s.queries && r.domains == s.domains && r.caches == s.caches && r.removed == s.removed && r.gc == s.gc
            && r.clients.free == s.clients.free && r.clients.live.Keys == s.clients.live.Keys
            && forall c :: c in s.clients.live ==> r.clients.live[c].key == s.clients.live[c].key
  {
    hide Aligned, ShiftOf, MovedSlots, MovedCounts;
  }

  /** The second round: the retracted queries leave the table, the others stay as they are, and
      of the records exactly those no remaining query needs are freed. */
  lemma FinishEffect(s: State, now: real)
    requires Inv(s) && s.gc.Some?
    ensures s.removed <= |s.queries|
    ensures var r, live := GcEnd(s, now), s.queries[s.removed..];
            && r.queries == live && r.removed == 0 && r.gc.None?
            && KeepsUsed(s, live, r, now) && Frees(s, r)
  {
    hide InvFrom, RecycleAll, MoveOverTime, KeepsUsed, Frees, Aligned, AllSince;
    InvSlots(s, s.removed);
    AdvancedKeeps(s);
    var t := Advanced(s);
    RecycleKeeps(t, now);
    RecycleEffect(t, now);
    var m := RecycleAll(t, now);
    InvSlots(m, 0);
    RecycleMarks(t, now);
    MoveOnly(m, s.gc.value);
    MovedUses(s, t, m, MoveOverTime(m, s.gc.value), now);
  }

  lemma RecycleMarks(s: State, now: real)
    ensures RecycleAll(s, now).gc == s.gc && RecycleAll(s, now).removed == s.removed
  {
    hide Recycled, DeadClients, DeadDomains, DeadCaches;
  }

  lemma MovedUses(s: State, t: State, m: State, r: State, now: real)
    requires t.clients == s.clients && t.domains == s.domains && t.caches == s.caches
    requires KeepsUsed(t, t.queries, m, now) && Frees(t, m)
    requires r.domains == m.domains && r.caches == m.caches
    requires r.clients.free == m.clients.free && r.clients.live.Keys == m.clients.live.Keys
    requires forall c :: c in m.clients.live ==> r.clients.live[c].key == m.clients.live[c].key
    ensures KeepsUsed(s, t.queries, r, now) && Frees(s, r)
  {
    hide Pushes, HasClient, HasDomain, HasCache;
  }

  /** The second round also moves the slot window to the oldest time kept, if that lies inside it. */
  lemma FinishWindow(s: State, now: real)
    requires Inv(s) && s.gc.Some? && s.gc.value >= 0
    ensures s.removed <= |s.queries| && |s.slots| == OVERTIME_SLOTS && |GcEnd(s, now).slots| == OVERTIME_SLOTS
    ensures var n, b := s.gc.value / OVERTIME_INTERVAL, Base(s.slots);
            Base(GcEnd(s, now).slots) == if b < n < b + OVERTIME_SLOTS then n else b
  {
    hide InvFrom, RecycleAll, ShiftOf, MovedSlots, MovedCounts, AllSince;
    InvSlots(s, s.removed);
    AdvancedKeeps(s);
    var m := RecycleAll(Advanced(s), now);
    RecycleKeeps(Advanced(s), now);
    InvSlots(m, 0);
    ShiftIff(m.slots, s.gc.value);
    if OverTime.Moves(ShiftOf(m.slots, s.gc.value)) {
      MoveShaped(m, s.gc.value);
    }
  }

  /** Both rounds: exactly the queries newer than the cut-off stay in the table, unchanged and in
      their order. */
  lemma CollectEffect(s: State, mintime: int, now: real, cfg: Config)
    requires Inv(s) && s.gc.None?
    ensures var t := GcBegin(s, mintime, cfg);
            && t.removed <= |t.queries| == |s.queries| && t.gc == Some(mintime)
            && (forall i :: 0 <= i < |s.queries| ==> (i < t.removed <==> s.queries[i].timestamp <= mintime as real))
            && GcEnd(t, now).queries == s.queries[t.removed..]
  {
    var t := GcBegin(s, mintime, cfg);
    BeginEffect(s, mintime, cfg);
    GcBeginKeeps(s, mintime, cfg);
    hide InvFrom, GcBegin, GcEnd;
    FinishEffect(t, now);
  }

  lemma BeginEffect(s: State, mintime: int, cfg: Config)
    requires Inv(s) && s.gc.None?
    ensures var t := GcBegin(s, mintime, cfg);
            && t.removed <= |t.queries| == |s.queries| && t.gc == Some(mintime)
            && (forall i :: 0 <= i < |s.queries| ==> (i < t.removed <==> s.queries[i].timestamp <= mintime as real))
            && t.queries[t.removed..] == s.queries[t.removed..]
  {
    hide InvFrom, RetractFrom, RetractedTo, Ordered;
    BeginOrdered(s);
    RetractFromKeeps(s, 0, mintime, cfg);
    RetractedOld(s, mintime, RetractFrom(s, 0, mintime, cfg));
  }

  lemma BeginOrdered(s: State)
    requires Inv(s) && s.gc.None?
    ensures InvFrom(s, 0) && Ordered(s, 0)
  {
    hide Tables, QueriesOk, CachesOk, Conserved, CnameCovered, Ordered, Shaped;
  }

  lemma RetractedOld(s: State, mintime: int, r: (State, nat))
    requires Ordered(s, 0) && RetractedTo(s, 0, mintime, r)
    ensures r.1 <= |r.0.queries| == |s.queries|
    ensures forall i :: 0 <= i < |s.queries| ==> (i < r.1 <==> s.queries[i].timestamp <= mintime as real)
    ensures r.0.queries[r.1..] == s.queries[r.1..]
  {
    forall i | r.1 <= i < |s.queries|
      ensures s.queries[i].timestamp > mintime as real
    {
      assert s.queries[r.1].timestamp <= s.queries[i].timestamp;
    }
  }
}
