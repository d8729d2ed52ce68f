// The garbage collector (src/gc.c, src/overTime.c): retracting the oldest queries,
// recycling records nobody refers to, and moving the time slots.
module Collection {
  import opened Records
  import opened Lookup
  import opened Interning
  import opened OverTime
  import opened Blocking
  import opened Hashing
  import opened Store
  import opened Conservation

  // ---- Retracting one query ----

  lemma UpdatedSameKeys<K, V>(t: Table<K, V>, id: nat, data: V)
    requires id in t.live
    ensures SameKeys(t, Updated(t, id, data))
  {
  }

  lemma SameFrameTrans(s: State, r: State, t: State)
    requires SameFrame(s, r) && SameFrame(r, t)
    ensures SameFrame(s, t)
  {
  }

  lemma SameFrameBasics(s: State, r: State)
    requires SameFrame(s, r)
    ensures r.gc == s.gc && r.removed == s.removed && |r.queries| == |s.queries|
  {
  }

  lemma TakenFrame(s: State, i: nat)
    requires Shaped(s) && CachesOk(s) && i < |s.queries| && QueryOk(s, s.queries[i])
    ensures var r := Taken(s, i);
            && SameFrame(s, r) && r.queries == s.queries[i := s.queries[i].(counted := false)]
            && (forall c :: c in s.caches.live ==> r.caches.live[c].data.cname == s.caches.live[c].data.cname)
  {
    var q, r := s.queries[i], Taken(s, i);
    UpdatedSameKeys(s.clients, q.clientID, r.clients.live[q.clientID].data);
    UpdatedSameKeys(s.domains, q.domainID, r.domains.live[q.domainID].data);
    UpdatedSameKeys(s.caches, q.cacheID, r.caches.live[q.cacheID].data);
    hide SameKeys, Aligned;
  }

  lemma ReleasedFrame(s: State, i: nat)
    requires Shaped(s) && CachesOk(s) && i < |s.queries| && QueryOk(s, s.queries[i])
    ensures var r := Released(s, i);
            && SameFrame(s, r) && Shaped(r) && Base(r.slots) == Base(s.slots) && CachesOk(r)
            && r.queries == s.queries[i := s.queries[i].(counted := false)]
            && (forall x: int :: Holders(r, x) == Holders(s, x))
  {
    var r := Released(s, i);
    TakenFrame(s, i);
    BumpCnameFrame(Taken(s, i), s.queries[i].cname, -1);
    hide Taken, BumpCname, Aligned;
    assert SameFrame(s, r);
    HoldersSame(s, r);
    SameFrameShaped(s, r);
    SameFrameCaches(s, r);
  }

  // What the loop takes off before it resets the status
  lemma TakenTally(s: State, i: nat, k: Tally)
    requires Shaped(s) && i < |s.queries| && QueryOk(s, s.queries[i]) && Shaped(Taken(s, i))
    requires Base(Taken(s, i).slots) == Base(s.slots)
    ensures var q, r := s.queries[i], Taken(s, i);
            match k
            case OfStatus(x) => Tallied(r, k) == Tallied(s, k) - One(x == Unknown)
            case OfBlockedSlot(_) => Tallied(r, k) == Tallied(s, k)
            case OfCachedSlot(_) => Tallied(r, k) == Tallied(s, k)
            case OfForwardedSlot(_) => Tallied(r, k) == Tallied(s, k)
            case OfCname(x) => Tallied(r, k) == Tallied(s, k)
            case _ => Tallied(r, k) == Tallied(s, k) - Hit(q, k)
  {
    hide Aligned, Interval, GetId;
    GetIdOfCovered(s.slots, s.queries[i].timestamp);
  }

  lemma BumpCnameTally(s: State, x: int, d: int, k: Tally)
    requires Shaped(s) && Shaped(BumpCname(s, x, d))
    ensures Tallied(BumpCname(s, x, d), k) ==
            Tallied(s, k) + if k == OfCname(x) && 0 <= x && x in s.domains.live then d else 0
  {
    hide Aligned;
  }

  lemma ReleasedTally(s: State, i: nat, k: Tally)
    requires Shaped(s) && CachesOk(s) && i < |s.queries| && QueryOk(s, s.queries[i]) && Shaped(Released(s, i))
    requires s.queries[i].cname >= 0 ==> s.queries[i].cname in s.domains.live
    ensures var q, r := s.queries[i], Released(s, i);
            match k
            case OfStatus(x) => Tallied(r, k) == Tallied(s, k) - One(x == Unknown)
            case OfBlockedSlot(_) => Tallied(r, k) == Tallied(s, k)
            case OfCachedSlot(_) => Tallied(r, k) == Tallied(s, k)
            case OfForwardedSlot(_) => Tallied(r, k) == Tallied(s, k)
            case OfCname(x) => x >= 0 ==> Tallied(r, k) == Tallied(s, k) - Hit(q, k)
            case _ => Tallied(r, k) == Tallied(s, k) - Hit(q, k)
  {
    var t := Taken(s, i);
    TakenFrame(s, i);
    SameFrameShaped(s, t);
    assert t.domains.live.Keys == s.domains.live.Keys;
    hide Taken, Aligned, Tallied, SameFrame, CachesOk, BumpCname;
    TakenTally(s, i, k);
    BumpCnameTally(t, s.queries[i].cname, -1, k);
  }

  lemma RetractTally(s: State, i: nat, cfg: Config, k: Tally)
    requires Shaped(s) && CachesOk(s) && i < |s.queries| && QueryOk(s, s.queries[i])
    requires s.queries[i].cname >= 0 ==> s.queries[i].cname in s.domains.live
    requires Shaped(Retract(s, i, cfg))
    ensures !(k.OfCname? && k.x < 0) ==> Tallied(Retract(s, i, cfg), k) == Tallied(s, k) - Hit(s.queries[i], k)
  {
    hide *;
    var r := Released(s, i);
    ReleasedFrame(s, i);
    ReleasedTally(s, i, k);
    ReleasedWindow(s, i);
    RetractIs(s, i, cfg);
    HitOfRetracted(s.queries[i], k);
    if Unknown != r.queries[i].status {
      SetStatusTally(r, i, Unknown, cfg, k);
    } else {
      SetStatusSame(r, i, cfg);
    }
  }

  lemma ReleasedWindow(s: State, i: nat)
    requires Shaped(s) && CachesOk(s) && i < |s.queries| && QueryOk(s, s.queries[i])
    ensures Shaped(Released(s, i)) && i < |Released(s, i).queries| && |Released(s, i).slots| == OVERTIME_SLOTS
    ensures InWindow(Released(s, i), Released(s, i).queries[i].timestamp)
    ensures i < |Released(s, i).queries|
  {
    ReleasedFrame(s, i);
    hide Released, Aligned, CachesOk, SameFrame, Base, Holders;
  }

  lemma SetStatusSame(s: State, i: nat, cfg: Config)
    requires |s.slots| == OVERTIME_SLOTS && i < |s.queries|
    ensures SetStatus(s, i, s.queries[i].status, cfg) == s
  {
  }

  lemma HitOfRetracted(q: Query, k: Tally)
    ensures var p := q.(counted := false);
            match k
            case OfStatus(x) => Hit(p, k) == Hit(q, k) && Hit(p.(status := Unknown), k) == One(x == Unknown)
            case OfBlockedSlot(_) => Hit(p, k) == Hit(q, k) && Hit(p.(status := Unknown), k) == 0
            case OfCachedSlot(_) => Hit(p, k) == Hit(q, k) && Hit(p.(status := Unknown), k) == 0
            case OfForwardedSlot(_) => Hit(p, k) == Hit(q, k) && Hit(p.(status := Unknown), k) == 0
            case _ => Hit(p.(status := Unknown), k) == Hit(p, k)
  {
    hide Interval;
  }

  lemma RetractFrame(s: State, i: nat, cfg: Config)
    requires Shaped(s) && CachesOk(s) && i < |s.queries| && QueryOk(s, s.queries[i])
    ensures var r := Retract(s, i, cfg);
            && SameFrame(s, r) && Shaped(r)
            && r.queries == s.queries[i := s.queries[i].(counted := false, status := Unknown)]
            && (forall x: int :: Holders(r, x) == Holders(s, x))
  {
    hide *;
    ReleasedFrame(s, i);
    SetStatusFrame(Released(s, i), i, Unknown, cfg);
    RetractIs(s, i, cfg);
    SameFrameTrans(s, Released(s, i), Retract(s, i, cfg));
  }

  lemma RetractIs(s: State, i: nat, cfg: Config)
    requires Shaped(s) && i < |s.queries| && QueryOk(s, s.queries[i]) && Shaped(Released(s, i)) && i < |Released(s, i).queries|
    ensures Retract(s, i, cfg) == SetStatus(Released(s, i), i, Unknown, cfg)
  {
    hide Released, SetStatus, Aligned;
  }

  // A live suffix that loses its first query
  lemma DropConserves(s: State, r: State, i: nat)
    requires Shaped(s) && Shaped(r) && i < |s.queries| == |r.queries| && r.queries[i + 1..] == s.queries[i + 1..]
    requires Conserved(s, i) && CnameCovered(s, i)
    requires forall k: Tally :: !(k.OfCname? && k.x < 0) ==> Tallied(r, k) == Tallied(s, k) - Hit(s.queries[i], k)
    requires forall x: int :: Holders(r, x) == Holders(s, x)
    ensures Conserved(r, i + 1) && CnameCovered(r, i + 1)
  {
    hide Tallied, Holders, Hit, Aligned, Count;
    forall k: Tally
      ensures Count(s.queries[i..], k) == Hit(s.queries[i], k) + Count(r.queries[i + 1..], k)
    {
      assert s.queries[i..] == [s.queries[i]] + s.queries[i + 1..];
      CountConcat([s.queries[i]], s.queries[i + 1..], k);
      CountOne(s.queries[i], k);
    }
  }

  lemma RetractQueries(s: State, r: State, i: nat)
    requires Shaped(s) && Shaped(r) && SameFrame(s, r) && QueriesOk(s) && i < |s.queries|
    requires r.queries == s.queries[i := s.queries[i].(counted := false, status := Unknown)]
    ensures QueriesOk(r)
  {
    hide Aligned;
    SameFrameShaped(s, r);
    forall j | 0 <= j < |r.queries|
      ensures QueryOk(r, r.queries[j])
    {
      assert QueryOk(s, s.queries[j]);
    }
  }

  // A suffix of an ordered suffix is ordered
  lemma SuffixOrdered(s: State, r: State, from: nat, to: nat)
    requires Ordered(s, from) && from <= to && |r.queries| == |s.queries| && r.gc == s.gc
    requires forall j :: to <= j < |s.queries| ==> r.queries[j] == s.queries[j]
    ensures Ordered(r, to)
  {
  }

  /** Retracting the oldest live query takes it out of every counter exactly once. */
  lemma RetractKeeps(s: State, i: nat, cfg: Config)
    requires InvFrom(s, i) && i < |s.queries|
    ensures InvFrom(Retract(s, i, cfg), i + 1)
    ensures Retract(s, i, cfg).queries == s.queries[i := s.queries[i].(counted := false, status := Unknown)]
    ensures SameFrame(s, Retract(s, i, cfg))
  {
    hide Aligned, Tallied, Holders, Hit, Retract, QueryOk, SameFrame, Tables, Conserved, CnameCovered, QueriesOk, CachesOk, Ordered;
    InvQuery(s, i, i);
    var r := Retract(s, i, cfg);
    RetractFrame(s, i, cfg);
    RetractConserves(s, i, cfg);
    SameFrameBasics(s, r);
    SuffixOrdered(s, r, i, i + 1);
    SameFrameCaches(s, r);
    RetractQueries(s, r, i);
    SameFrameTables(s, r);
  }

  lemma RetractConserves(s: State, i: nat, cfg: Config)
    requires InvFrom(s, i) && i < |s.queries|
    ensures Shaped(s) && QueryOk(s, s.queries[i])
    ensures Shaped(Retract(s, i, cfg)) && Conserved(Retract(s, i, cfg), i + 1) && CnameCovered(Retract(s, i, cfg), i + 1)
  {
    hide Aligned, Tallied, Holders, Hit, Retract, QueryOk, SameFrame, Tables, Conserved, CnameCovered, QueriesOk, CachesOk, Ordered;
    InvQuery(s, i, i);
    RetractFrame(s, i, cfg);
    if s.queries[i].cname >= 0 {
      QueryCnameLive(s, i, i);
    }
    forall k: Tally {
      RetractTally(s, i, cfg, k);
    }
    DropConserves(s, Retract(s, i, cfg), i);
  }

  // ---- The first locked round ----

  /** The retraction loop of runGC() from query i on, and the first query it keeps. A
      query whose records are gone would be skipped; none is, see RetractFromKeeps. */
  ghost function RetractFrom(s: State, i: nat, mintime: int, cfg: Config): (r: (State, nat))
    decreases |s.queries| - i
  {
    if i < |s.queries| && s.queries[i].timestamp <= mintime as real && Shaped(s) && QueryOk(s, s.queries[i]) then
      var r := Retract(s, i, cfg);
      if |r.queries| == |s.queries| then RetractFrom(r, i + 1, mintime, cfg) else (r, i + 1)
    else (s, i)
  }

  // What the loop leaves alone, and that it stops at the first query that is too new
  ghost predicate RetractedTo(s: State, i: nat, mintime: int, r: (State, nat)) {
    && i <= r.1 <= |s.queries| == |r.0.queries| && r.0.removed == s.removed && r.0.gc == s.gc
    && (forall j :: r.1 <= j < |s.queries| ==> r.0.queries[j] == s.queries[j])
    && (forall j :: i <= j < r.1 ==> s.queries[j].timestamp <= mintime as real)
    && (r.1 < |s.queries| ==> s.queries[r.1].timestamp > mintime as real)
  }

  lemma RetractedToStep(s: State, i: nat, mintime: int, t: State, r: (State, nat))
    requires i < |s.queries| == |t.queries| && t.gc == s.gc && t.removed == s.removed
    requires s.queries[i].timestamp <= mintime as real
    requires t.queries == s.queries[i := t.queries[i]]
    requires RetractedTo(t, i + 1, mintime, r)
    ensures RetractedTo(s, i, mintime, r)
  {
    assert forall j :: i < j < |s.queries| ==> t.queries[j] == s.queries[j];
  }

  lemma {:induction false} RetractFromKeeps(s: State, i: nat, mintime: int, cfg: Config)
    requires InvFrom(s, i)
    ensures var r := RetractFrom(s, i, mintime, cfg); InvFrom(r.0, r.1) && RetractedTo(s, i, mintime, r)
    decreases |s.queries| - i
  {
    hide InvFrom, Retract, SameFrame, Shaped, QueryOk;
    if i < |s.queries| && s.queries[i].timestamp <= mintime as real {
      InvQuery(s, i, i);
      var t := Retract(s, i, cfg);
      RetractKeeps(s, i, cfg);
      SameFrameBasics(s, t);
      RetractFromKeeps(t, i + 1, mintime, cfg);
      hide RetractedTo;
      RetractedToStep(s, i, mintime, t, RetractFrom(t, i + 1, mintime, cfg));
    } else {
      InvBound(s, i);
    }
  }

  lemma InvBound(s: State, i: nat)
    requires InvFrom(s, i)
    ensures i <= |s.queries|
  {
  }

  ghost function GcBegin(s: State, mintime: int, cfg: Config): State {
    var r := RetractFrom(s, 0, mintime, cfg);
    r.0.(removed := r.1, gc := Some(mintime))
  }

  lemma GcBeginKeeps(s: State, mintime: int, cfg: Config)
    requires Inv(s) && s.gc.None?
    ensures Inv(GcBegin(s, mintime, cfg))
  {
    hide InvFrom, RetractFrom;
    var (t, n) := RetractFrom(s, 0, mintime, cfg);
    RetractFromKeeps(s, 0, mintime, cfg);
    MarkKeeps(t, n, mintime, GcBegin(s, mintime, cfg));
  }

  lemma MarkOrdered(t: State, n: nat, mintime: int, r: State)
    requires Ordered(t, n) && (n < |t.queries| ==> t.queries[n].timestamp > mintime as real)
    requires r == t.(removed := n, gc := Some(mintime))
    ensures Ordered(r, n)
  {
  }

  lemma RelabelQueries(t: State, r: State)
    requires Shaped(t) && Shaped(r) && QueriesOk(t)
    requires r == t.(removed := r.removed, gc := r.gc)
    ensures QueriesOk(r)
  {
    hide Aligned;
    assert forall j :: 0 <= j < |r.queries| ==> QueryOk(t, t.queries[j]);
  }

  lemma MarkKeeps(t: State, n: nat, mintime: int, r: State)
    requires InvFrom(t, n) && (n < |t.queries| ==> t.queries[n].timestamp > mintime as real)
    requires r == t.(removed := n, gc := Some(mintime))
    ensures Inv(r)
  {
    assert Tables(r) && CachesOk(r);
    hide Ordered, Tables, Aligned, QueriesOk, Conserved, CnameCovered, CachesOk;
    RelabelConserves(t, r, n);
    RelabelQueries(t, r);
    MarkOrdered(t, n, mintime, r);
  }

  // The counters of a state do not depend on how far the collector got
  lemma RelabelConserves(t: State, r: State, n: nat)
    requires Shaped(t) && n <= |t.queries| && Conserved(t, n) && CnameCovered(t, n)
    requires r == t.(removed := r.removed, gc := r.gc) && r.removed <= |t.queries|
    ensures Shaped(r) && Conserved(r, n) && CnameCovered(r, n)
  {
    hide Aligned, Count, Holders;
    assert forall k: Tally :: Tallied(r, k) == Tallied(t, k);
    assert forall x: int :: Holders(r, x) == Holders(t, x) by {
      HoldersSame(t, r);
    }
  }

  // ---- Recycling ----

  // The invariant without the records DNS cache entries point to, which recycling
  // takes away before the entries themselves
  ghost predicate Core(s: State) {
    && Shaped(s) && Tables(s) && QueriesOk(s) && Ordered(s, 0)
    && Conserved(s, 0) && CnameCovered(s, 0)
    && (forall c :: c in s.caches.live ==> -1 <= s.caches.live[c].data.cname)
  }

  lemma Unreferenced(s: State, i: nat, k: Tally)
    requires Shaped(s) && Conserved(s, 0) && i < |s.queries| && Hits(s.queries[i], k) && !k.OfCname?
    ensures Tallied(s, k) > 0
  {
    hide Tallied, Hits, Count, Aligned;
    assert s.queries[0..] == s.queries;
    CountPositive(s.queries, i, k);
  }

  // Recycled clients have no live query left, in no time slot
  lemma DeadClientTallies(s: State, c: nat)
    requires Shaped(s) && Conserved(s, 0) && c in DeadClients(s)
    ensures Tallied(s, OfClient(c)) == 0
    ensures forall n: int :: Tallied(s, OfClientSlot(c, n)) == 0
  {
    assert Tallied(s, OfClient(c)) <= 0;
    hide Tallied, Aligned, Count, Interval;
    assert Tallied(s, OfClient(c)) == Count(s.queries[0..], OfClient(c));
    forall n: int
      ensures Tallied(s, OfClientSlot(c, n)) == 0
    {
      assert Tallied(s, OfClientSlot(c, n)) == Count(s.queries[0..], OfClientSlot(c, n));
      CountBelow(s.queries[0..], OfClientSlot(c, n), OfClient(c));
    }
  }

  lemma ClientsStill(s: State)
    requires Shaped(s) && Conserved(s, 0)
    ensures Shaped(WithoutClients(s)) && Still(s, WithoutClients(s))
  {
    var r := WithoutClients(s);
    assert Shaped(r) by {
      hide Aligned;
    }
    HoldersSame(s, r);
    forall c | c in DeadClients(s) {
      DeadClientTallies(s, c);
    }
    hide Aligned, Conserved, Holders, DeadClients, Kept, FreedIds;
    forall k: Tally
      ensures Tallied(r, k) == Tallied(s, k)
    {
    }
  }

  lemma ClientsQueries(s: State)
    requires Shaped(s) && Conserved(s, 0) && QueriesOk(s) && Shaped(WithoutClients(s))
    ensures QueriesOk(WithoutClients(s))
  {
    var r := WithoutClients(s);
    forall i | 0 <= i < |r.queries|
      ensures QueryOk(r, r.queries[i])
    {
      assert QueryOk(s, s.queries[i]);
      Unreferenced(s, i, OfClient(s.queries[i].clientID));
      hide Aligned, Conserved, Kept, FreedIds;
    }
  }

  lemma ClientsKeep(s: State)
    requires Core(s)
    ensures Core(WithoutClients(s))
  {
    assert Ordered(WithoutClients(s), 0);
    ClientsStill(s);
    ClientsQueries(s);
    hide Conserved, CnameCovered, QueriesOk, Ordered, Aligned, Still, Indexed, Allocatable, Recycled, DeadClients;
    RecycledValid(s.clients, DeadClients(s), HashStr);
    StillConserves(s, WithoutClients(s), 0);
  }

  // Recycled domains have no live query and no reference left
  lemma DeadDomainTallies(s: State, d: nat, now: real)
    requires Shaped(s) && Conserved(s, 0) && CnameCovered(s, 0) && d in DeadDomains(s, now)
    ensures Tallied(s, OfDomain(d)) == 0 && Tallied(s, OfCname(d)) == 0
  {
    assert Tallied(s, OfDomain(d)) <= 0 && Tallied(s, OfCname(d)) <= 0;
    hide Tallied, Aligned, Count, Holders;
    assert Tallied(s, OfDomain(d)) == Count(s.queries[0..], OfDomain(d));
  }

  lemma DomainsStill(s: State, now: real)
    requires Shaped(s) && Conserved(s, 0) && CnameCovered(s, 0)
    ensures Shaped(WithoutDomains(s, now)) && Still(s, WithoutDomains(s, now))
  {
    var r := WithoutDomains(s, now);
    assert Shaped(r) by {
      hide Aligned;
    }
    HoldersSame(s, r);
    forall d | d in DeadDomains(s, now) {
      DeadDomainTallies(s, d, now);
    }
    hide Aligned, Conserved, CnameCovered, Holders, DeadDomains, Kept, FreedIds;
    forall k: Tally | !(k.OfCname? && k.x < 0)
      ensures Tallied(r, k) == Tallied(s, k)
    {
    }
  }

  lemma DomainsQueries(s: State, now: real)
    requires Shaped(s) && Conserved(s, 0) && QueriesOk(s) && Shaped(WithoutDomains(s, now))
    ensures QueriesOk(WithoutDomains(s, now))
  {
    var r := WithoutDomains(s, now);
    forall i | 0 <= i < |r.queries|
      ensures QueryOk(r, r.queries[i])
    {
      assert QueryOk(s, s.queries[i]);
      Unreferenced(s, i, OfDomain(s.queries[i].domainID));
      hide Aligned, Conserved, Kept, FreedIds;
    }
  }

  lemma DomainsKeep(s: State, now: real)
    requires Core(s)
    ensures Core(WithoutDomains(s, now))
  {
    assert Ordered(WithoutDomains(s, now), 0);
    DomainsStill(s, now);
    DomainsQueries(s, now);
    hide Conserved, CnameCovered, QueriesOk, Ordered, Aligned, Still, Indexed, Allocatable, Recycled, DeadDomains;
    RecycledValid(s.domains, DeadDomains(s, now), HashStr);
    StillConserves(s, WithoutDomains(s, now), 0);
  }

  lemma HoldersLeft(s: State, x: int)
    ensures Holders(WithoutCaches(s), x) == Holders(s, x) - |HoldersIn(s.caches.live, DeadCaches(s), x)|
  {
    var r := WithoutCaches(s);
    var all, dead := HoldersIn(s.caches.live, s.caches.live.Keys, x), HoldersIn(s.caches.live, DeadCaches(s), x);
    assert HoldersIn(r.caches.live, r.caches.live.Keys, x) == all - dead;
    assert dead <= all;
  }

  lemma DeadCacheTallies(s: State, c: nat)
    requires Shaped(s) && Conserved(s, 0) && c in DeadCaches(s)
    ensures Tallied(s, OfCache(c)) == 0
  {
    assert Tallied(s, OfCache(c)) <= 0;
    hide Tallied, Aligned, Count;
    assert Tallied(s, OfCache(c)) == Count(s.queries[0..], OfCache(c));
  }

  lemma CachesTally(s: State, k: Tally)
    requires Shaped(s) && Shaped(WithoutCaches(s))
    requires forall c :: c in DeadCaches(s) ==> Tallied(s, OfCache(c)) == 0
    ensures !k.OfCname? ==> Tallied(WithoutCaches(s), k) == Tallied(s, k)
    ensures k.OfCname? && k.x >= 0 && k.x in s.domains.live ==>
              Tallied(WithoutCaches(s), k) == Tallied(s, k) - |HoldersIn(s.caches.live, DeadCaches(s), k.x)|
  {
    hide Aligned, Kept, FreedIds;
  }

  lemma CachesStill(s: State)
    requires Shaped(s) && Conserved(s, 0) && CnameCovered(s, 0)
    ensures Shaped(WithoutCaches(s)) && Still(s, WithoutCaches(s))
  {
    var r := WithoutCaches(s);
    assert Shaped(r) by {
      hide Aligned;
    }
    assert r.domains.live.Keys == s.domains.live.Keys;
    forall c | c in DeadCaches(s) {
      DeadCacheTallies(s, c);
    }
    forall x: nat
      ensures Tallied(r, OfCname(x)) - Holders(r, x) >= Tallied(s, OfCname(x)) - Holders(s, x)
    {
      hide WithoutCaches, Aligned, Conserved, DeadCaches, HoldersIn, Holders;
      HoldersLeft(s, x);
      CachesTally(s, OfCname(x));
    }
    hide WithoutCaches, Aligned, Conserved, CnameCovered, Holders, DeadCaches, Tallied;
    forall k: Tally {
      CachesTally(s, k);
    }
  }

  lemma CachesQueries(s: State)
    requires Shaped(s) && Conserved(s, 0) && QueriesOk(s) && Shaped(WithoutCaches(s))
    ensures QueriesOk(WithoutCaches(s))
  {
    var r := WithoutCaches(s);
    forall i | 0 <= i < |r.queries|
      ensures QueryOk(r, r.queries[i])
    {
      assert QueryOk(s, s.queries[i]);
      Unreferenced(s, i, OfCache(s.queries[i].cacheID));
      hide Aligned, Conserved, Kept, FreedIds, HoldersIn;
    }
  }

  lemma CachesTables(s: State)
    requires Tables(s)
    ensures Tables(WithoutCaches(s))
  {
    var r := WithoutCaches(s);
    assert SameKeys(s.domains, r.domains) by {
      hide HoldersIn, Recycled;
    }
    hide Interning.Valid, Recycled, DeadCaches, GiveBack, HoldersIn;
    RecycledValid(s.caches, DeadCaches(s), HashKey);
    SameKeysValid(s.domains, r.domains, HashStr);
  }

  lemma CachesKeep(s: State)
    requires Core(s)
    ensures Core(WithoutCaches(s))
  {
    assert Ordered(WithoutCaches(s), 0);
    CachesStill(s);
    CachesQueries(s);
    hide Conserved, CnameCovered, QueriesOk, Ordered, Aligned, Still, Tables, Kept, FreedIds, HoldersIn;
    CachesTables(s);
    StillConserves(s, WithoutCaches(s), 0);
  }

  // Every DNS cache record left is in use by a query that shares its key
  lemma CachesLeftOk(s: State)
    requires Core(WithoutCaches(s))
    ensures CachesOk(WithoutCaches(s))
  {
    var r := WithoutCaches(s);
    forall c | c in r.caches.live
      ensures r.caches.live[c].key.domainID in r.domains.live && r.caches.live[c].key.clientID in r.clients.live
    {
      assert Tallied(r, OfCache(c)) > 0 by {
        hide Core, Kept, FreedIds, GiveBack, Aligned;
        LeftInUse(s, c);
      }
      assert Conserved(r, 0) && Tallied(r, OfCache(c)) == Count(r.queries[0..], OfCache(c));
      var i := CountWitness(r.queries[0..], OfCache(c));
      assert QueryOk(r, r.queries[i]);
    }
  }

  lemma LeftInUse(s: State, c: nat)
    requires c in WithoutCaches(s).caches.live && Shaped(WithoutCaches(s))
    ensures Tallied(WithoutCaches(s), OfCache(c)) > 0
  {
    hide Aligned, Kept, FreedIds, HoldersIn;
  }

  /** Recycling keeps the invariant, although domains go before the records that may
      still name them. */
  lemma RecycleKeeps(s: State, now: real)
    requires InvFrom(s, 0)
    ensures InvFrom(RecycleAll(s, now), 0)
    ensures RecycleAll(s, now).queries == s.queries && RecycleAll(s, now).slots == s.slots
  {
    assert Core(s);
    var s1 := WithoutClients(s);
    var s2 := WithoutDomains(s1, now);
    assert s1.queries == s.queries && s1.slots == s.slots;
    assert s2.queries == s1.queries && s2.slots == s1.slots;
    assert WithoutCaches(s2).queries == s2.queries && WithoutCaches(s2).slots == s2.slots;
    hide InvFrom, Core, WithoutClients, WithoutDomains, WithoutCaches;
    ClientsKeep(s);
    DomainsKeep(s1, now);
    CachesKeep(s2);
    CachesLeftOk(s2);
    CoreInv(WithoutCaches(s2));
  }

  lemma CoreInv(s: State)
    requires Core(s) && CachesOk(s)
    ensures InvFrom(s, 0)
  {
  }

  // ---- Moving the time slots ----

  lemma NoOlderQuery(s: State, b: int, k: Tally)
    requires Shaped(s) && Conserved(s, 0)
    requires forall i :: 0 <= i < |s.queries| ==> b <= Interval(s.queries[i].timestamp)
    requires match k
             case OfSlot(n) => n < b
             case OfBlockedSlot(n) => n < b
             case OfCachedSlot(n) => n < b
             case OfForwardedSlot(n) => n < b
             case OfClientSlot(_, n) => n < b
             case _ => false
    ensures Tallied(s, k) == 0
  {
    assert forall i :: 0 <= i < |s.queries| ==> !Hits(s.queries[i], k);
    hide Tallied, Aligned, Interval, Hits;
    assert s.queries[0..] == s.queries;
    if Count(s.queries, k) > 0 {
      var i := CountWitness(s.queries, k);
    }
    assert Tallied(s, k) == Count(s.queries[0..], k);
  }

  /** Every slot a move drops is already zero, globally and for each client. */
  lemma DroppedSlotsAreZero(s: State, b: int)
    requires Shaped(s) && Conserved(s, 0)
    requires forall i :: 0 <= i < |s.queries| ==> b <= Interval(s.queries[i].timestamp)
    ensures forall j :: 0 <= j < OVERTIME_SLOTS && Base(s.slots) + j < b ==>
              s.slots[j] == Slot(s.slots[j].timestamp, 0, 0, 0, 0)
    ensures forall c, j :: c in s.clients.live && 0 <= j < OVERTIME_SLOTS && Base(s.slots) + j < b ==>
              s.clients.live[c].data.overTime[j] == 0
  {
    forall j | 0 <= j < OVERTIME_SLOTS && Base(s.slots) + j < b
      ensures s.slots[j] == Slot(s.slots[j].timestamp, 0, 0, 0, 0)
    {
      var n := Base(s.slots) + j;
      NoOlderQuery(s, b, OfSlot(n));
      NoOlderQuery(s, b, OfBlockedSlot(n));
      NoOlderQuery(s, b, OfCachedSlot(n));
      NoOlderQuery(s, b, OfForwardedSlot(n));
    }
    forall c, j | c in s.clients.live && 0 <= j < OVERTIME_SLOTS && Base(s.slots) + j < b
      ensures s.clients.live[c].data.overTime[j] == 0
    {
      NoOlderQuery(s, b, OfClientSlot(c, Base(s.slots) + j));
    }
  }

  // All live queries are at least as recent as the cut-off
  ghost predicate AllSince(s: State, mintime: int) {
    forall i :: 0 <= i < |s.queries| ==> mintime as real <= s.queries[i].timestamp
  }

  lemma SinceInterval(s: State, mintime: int)
    requires AllSince(s, mintime)
    ensures forall i :: 0 <= i < |s.queries| ==> mintime / OVERTIME_INTERVAL <= Interval(s.queries[i].timestamp)
  {
    forall i | 0 <= i < |s.queries|
      ensures mintime / OVERTIME_INTERVAL <= Interval(s.queries[i].timestamp)
    {
      assert mintime <= s.queries[i].timestamp.Floor;
    }
  }

  lemma MoveTally(s: State, mintime: int, k: Tally)
    requires Shaped(s) && Conserved(s, 0) && AllSince(s, mintime)
    requires Moves(ShiftOf(s.slots, mintime)) && Shaped(MoveOverTime(s, mintime))
    requires Base(MoveOverTime(s, mintime).slots) == Base(s.slots) + ShiftOf(s.slots, mintime) == mintime / OVERTIME_INTERVAL
    ensures Tallied(MoveOverTime(s, mintime), k) == Tallied(s, k)
  {
    SinceInterval(s, mintime);
    DroppedSlotsAreZero(s, mintime / OVERTIME_INTERVAL);
    hide Aligned, Conserved, AllSince, ShiftOf, Interval, Base;
  }

  lemma MoveShaped(s: State, mintime: int)
    requires Shaped(s) && Moves(ShiftOf(s.slots, mintime))
    ensures var r := MoveOverTime(s, mintime);
            && Shaped(r) && SameKeys(s.clients, r.clients)
            && Base(r.slots) == Base(s.slots) + ShiftOf(s.slots, mintime) == mintime / OVERTIME_INTERVAL
            && 0 <= mintime
  {
    MovedAligned(s.slots, ShiftOf(s.slots, mintime));
    ShiftBound(s.slots, mintime);
    hide Aligned, ShiftOf, MovedSlots;
  }

  lemma MoveQueries(s: State, mintime: int)
    requires Shaped(s) && QueriesOk(s) && AllSince(s, mintime)
    requires Moves(ShiftOf(s.slots, mintime)) && Shaped(MoveOverTime(s, mintime))
    requires Base(MoveOverTime(s, mintime).slots) == Base(s.slots) + ShiftOf(s.slots, mintime) == mintime / OVERTIME_INTERVAL
    ensures QueriesOk(MoveOverTime(s, mintime))
  {
    var r := MoveOverTime(s, mintime);
    SinceInterval(s, mintime);
    hide Aligned, ShiftOf, MovedSlots, MovedCounts, Interval, AllSince, Base;
    forall i | 0 <= i < |r.queries|
      ensures QueryOk(r, r.queries[i])
    {
      assert QueryOk(s, s.queries[i]);
    }
  }

  lemma MoveStill(s: State, mintime: int)
    requires Shaped(s) && Conserved(s, 0) && AllSince(s, mintime)
    requires Moves(ShiftOf(s.slots, mintime)) && Shaped(MoveOverTime(s, mintime))
    requires Base(MoveOverTime(s, mintime).slots) == Base(s.slots) + ShiftOf(s.slots, mintime) == mintime / OVERTIME_INTERVAL
    ensures Still(s, MoveOverTime(s, mintime))
  {
    HoldersSame(s, MoveOverTime(s, mintime));
    hide Aligned, Conserved, AllSince, ShiftOf, Tallied, Holders, MoveOverTime, Base;
    forall k: Tally {
      MoveTally(s, mintime, k);
    }
  }

  /** Moving the window keeps the invariant. */
  lemma MoveKeeps(s: State, mintime: int)
    requires InvFrom(s, 0) && AllSince(s, mintime)
    ensures InvFrom(MoveOverTime(s, mintime), 0)
  {
    var r := MoveOverTime(s, mintime);
    if Moves(ShiftOf(s.slots, mintime)) {
      MoveShaped(s, mintime);
      assert Ordered(r, 0) && CachesOk(r);
      hide Tables, Conserved, CnameCovered, QueriesOk, CachesOk, Ordered, Still, Aligned, Base, ShiftOf;
      MoveStill(s, mintime);
      MoveQueries(s, mintime);
      StillConserves(s, r, 0);
      MoveTables(s, r);
    }
  }

  lemma MoveTables(s: State, r: State)
    requires Tables(s) && SameKeys(s.clients, r.clients) && r.domains == s.domains && r.caches == s.caches
    ensures Tables(r)
  {
    hide Interning.Valid, SameKeys;
    assert Interning.Valid(r.clients, HashStr) by {
      SameKeysTable(s.clients, r.clients);
    }
  }

  lemma SameKeysTable(t: Table<string, Client>, r: Table<string, Client>)
    requires Interning.Valid(t, HashStr) && SameKeys(t, r)
    ensures Interning.Valid(r, HashStr)
  {
    hide Interning.Valid;
    SameKeysValid(t, r, HashStr);
  }

  // ---- The second locked round ----

  // The retracted queries leave the window
  ghost function Advanced(s: State): State
    requires s.removed <= |s.queries|
  {
    s.(queries := s.queries[s.removed..], removed := 0, gc := None)
  }

  ghost function GcEnd(s: State, now: real): State
    requires s.gc.Some? && s.removed <= |s.queries|
  {
    var r := RecycleAll(Advanced(s), now);
    if Shaped(r) then MoveOverTime(r, s.gc.value) else r
  }

  lemma AdvancedKeeps(s: State)
    requires Inv(s) && s.gc.Some?
    ensures InvFrom(Advanced(s), 0) && AllSince(Advanced(s), s.gc.value)
  {
    var r := Advanced(s);
    assert Ordered(r, 0) && AllSince(r, s.gc.value) by {
      AdvancedOrdered(s);
    }
    assert Tables(r) && CachesOk(r);
    hide Ordered, AllSince, Tables, CachesOk, Aligned;
    AdvancedQueries(s);
    AdvancedConserves(s);
  }

  lemma AdvancedOrdered(s: State)
    requires s.removed <= |s.queries| && Ordered(s, s.removed) && s.gc.Some?
    ensures Ordered(Advanced(s), 0) && AllSince(Advanced(s), s.gc.value)
  {
  }

  lemma AdvancedQueries(s: State)
    requires Shaped(s) && QueriesOk(s)
    ensures Shaped(Advanced(s)) && QueriesOk(Advanced(s))
  {
    hide Aligned;
    var r := Advanced(s);
    forall i | 0 <= i < |r.queries|
      ensures QueryOk(r, r.queries[i])
    {
      assert QueryOk(s, s.queries[s.removed + i]);
    }
  }

  lemma AdvancedConserves(s: State)
    requires Shaped(s) && Shaped(Advanced(s)) && Conserved(s, s.removed) && CnameCovered(s, s.removed)
    ensures Conserved(Advanced(s), 0) && CnameCovered(Advanced(s), 0)
  {
    var r := Advanced(s);
    assert r.queries[0..] == s.queries[s.removed..];
    HoldersSame(s, r);
    hide Aligned, Count, Holders;
    assert forall k: Tally :: Tallied(r, k) == Tallied(s, k);
  }

  lemma GcEndKeeps(s: State, now: real)
    requires Inv(s) && s.gc.Some?
    ensures Inv(GcEnd(s, now))
  {
    var t := Advanced(s);
    assert t.gc.None? && RecycleAll(t, now).gc.None? && RecycleAll(t, now).removed == 0;
    hide Advanced, RecycleAll, AllSince, Tables, Conserved, CnameCovered, QueriesOk, Ordered, CachesOk, Aligned;
    AdvancedKeeps(s);
    RecycleKeeps(t, now);
    SinceKept(t, RecycleAll(t, now), s.gc.value);
    MoveKeeps(RecycleAll(t, now), s.gc.value);
  }

  lemma SinceKept(s: State, r: State, mintime: int)
    requires AllSince(s, mintime) && r.queries == s.queries
    ensures AllSince(r, mintime)
  {
  }

  // ---- The cut-off time ----

  // set_gc_interval(): a history of zero seconds shortens both
  function GcInterval(maxHistory: nat): nat {
    if maxHistory == 0 then 60 else 600
  }

  function GcDelay(maxHistory: nat): nat {
    if maxHistory == 0 then 10 else 60
  }

  // Unsigned 32-bit arithmetic
  function U32(n: int): nat {
    n % 0x1_0000_0000
  }

  function AlignDown(t: int, interval: nat): int
    requires interval > 0
  {
    t - CMod(t, interval)
  }

  /** The cut-off runGC() computes. Delay and history are unsigned, so their difference wraps. */
  function MinTime(now: int, maxHistory: nat): int {
    AlignDown(now - U32(maxHistory - GcDelay(maxHistory)), GcInterval(maxHistory))
  }

  /** The cut-off is the configured history before now, less the delay and rounded down to
      the interval, exactly if the history is at least as long as the delay. */
  lemma MinTimeIff(now: int, maxHistory: nat)
    requires maxHistory < 0x1_0000_0000
    ensures MinTime(now, maxHistory) == AlignDown(now - (maxHistory - GcDelay(maxHistory)), GcInterval(maxHistory))
            <==> GcDelay(maxHistory) <= maxHistory
  {
    var delay := GcDelay(maxHistory);
    if maxHistory < delay {
      assert U32(maxHistory - delay) == 0x1_0000_0000 + maxHistory - delay;
      AlignDownNear(now - (maxHistory - delay), maxHistory);
      AlignDownNear(now - U32(maxHistory - delay), maxHistory);
    }
  }

  lemma AlignDownNear(t: int, maxHistory: nat)
    ensures t - 600 < AlignDown(t, GcInterval(maxHistory)) < t + 600
    ensures 0 <= t ==> AlignDown(t, GcInterval(maxHistory)) <= t
    ensures t < 0 ==> AlignDown(t, GcInterval(maxHistory)) <= 0
  {
  }

  /** The cut-off is never in the future, so queries that arrive later are kept. */
  /** A history of zero: the difference of no seconds and a delay of ten wraps to almost 2^32. */
  lemma ZeroHistory(now: int)
    ensures MinTime(now, 0) == AlignDown(now - 4294967286, 60)
  {
  }

  lemma MinTimePast(now: int, maxHistory: nat)
    requires 0 <= now && maxHistory < 0x1_0000_0000
    ensures MinTime(now, maxHistory) <= now
  {
    AlignDownNear(now - U32(maxHistory - GcDelay(maxHistory)), maxHistory);
  }

  /** With a history shorter than the delay, zero included, the collector retracts nothing
      at all. */
  lemma ShortHistoryKeepsAll(s: State, now: int, maxHistory: nat, cfg: Config)
    requires maxHistory < GcDelay(maxHistory) && s.queries != []
    requires s.queries[0].timestamp >= now as real - 4000000000.0
    ensures GcBegin(s, MinTime(now, maxHistory), cfg).removed == 0
    ensures GcBegin(s, MinTime(now, maxHistory), cfg).queries == s.queries
  {
    AlignDownNear(now - U32(maxHistory - GcDelay(maxHistory)), maxHistory);
    assert MinTime(now, maxHistory) < now - 4000000000;
    hide MinTime, GcDelay, U32;
  }

  /** After a collection of the default 24 hours, the window reaches past the moment the next
      collection is due. */
  lemma WindowReachesNextRun(slots: seq<Slot>, now: nat, t: int)
    requires Aligned(slots) && Base(slots) >= 0 && now >= 86400
    requires Moves(ShiftOf(slots, MinTime(now, 86400)))
    requires now <= t < AlignDown(now + 60, 600) + 600
    ensures Covers(MovedSlots(slots, ShiftOf(slots, MinTime(now, 86400))), t / OVERTIME_INTERVAL)
  {
    hide ShiftOf, MovedSlots, MinTime, AlignDown;
    var m := MinTime(now, 86400);
    DayMinTime(now);
    ShiftBound(slots, m);
    MovedAligned(slots, ShiftOf(slots, m));
    DayCovers(AlignDown(now + 60, 600), now, t);
  }

  lemma DayMinTime(now: nat)
    requires now >= 86400
    ensures var a := AlignDown(now + 60, 600);
            MinTime(now, 86400) == a - 86400 && a % 600 == 0 && now + 60 - 600 < a <= now + 60
  {
    var x := now + 60;
    DayEarlier(x);
    assert U32(86400 - GcDelay(86400)) == 86340 && GcInterval(86400) == 600;
    assert AlignDown(x, 600) == x - x % 600 && AlignDown(x - 86400, 600) == x - 86400 - (x - 86400) % 600;
  }

  // A day is a whole number of intervals
  lemma DayEarlier(x: int)
    ensures (x - 86400) % 600 == x % 600 && (x - x % 600) % 600 == 0
  {
    var n, r := x / 600, x % 600;
    assert x == 600 * n + r;
    assert x - 86400 == 600 * (n - 144) + r;
  }

  // The slot of any second up to the interval after a is among the 145 from a day before it
  lemma DayCovers(a: int, now: int, t: int)
    requires a % 600 == 0 && a <= now + 60 && now <= t < a + 600 && now + 60 < a + 600
    ensures 0 <= t / 600 - (a - 86400) / 600 < 145
  {
    var n := a / 600;
    assert a == 600 * n;
    assert (a - 86400) / 600 == n - 144;
  }
}
