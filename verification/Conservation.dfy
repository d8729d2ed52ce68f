// What every locked section of the store keeps: the counters equal the counts over the
// live queries, IDs never dangle, and the tables stay valid.
module Conservation {
  import opened Records
  import opened Interning
  import opened OverTime
  import opened Blocking
  import opened Hashing
  import opened Store

  // ---- The invariant ----

  ghost predicate Tables(s: State) {
    && Interning.Valid(s.clients, HashStr)
    && Interning.Valid(s.domains, HashStr)
    && Interning.Valid(s.caches, HashKey)
  }

  // Retracted queries, too, keep their records until they leave the table
  ghost predicate QueriesOk(s: State)
    requires Shaped(s)
  {
    forall i :: 0 <= i < |s.queries| ==> QueryOk(s, s.queries[i])
  }

  ghost predicate CachesOk(s: State) {
    forall c :: c in s.caches.live ==>
      && s.caches.live[c].key.domainID in s.domains.live
      && s.caches.live[c].key.clientID in s.clients.live
      && -1 <= s.caches.live[c].data.cname
  }

  ghost predicate Ordered(s: State, from: nat) {
    && (forall i, j :: from <= i <= j < |s.queries| ==> s.queries[i].timestamp <= s.queries[j].timestamp)
    && (s.gc.Some? ==> forall i :: from <= i < |s.queries| ==> s.gc.value as real <= s.queries[i].timestamp)
  }

  // Every exact counter equals the count over the live queries
  ghost predicate Conserved(s: State, from: nat)
    requires Shaped(s) && from <= |s.queries|
  {
    forall k: Tally :: !k.OfCname? ==> Tallied(s, k) == Count(s.queries[from..], k)
  }

  ghost function Holders(s: State, x: int): nat {
    |HoldersIn(s.caches.live, s.caches.live.Keys, x)|
  }

  // A domain is referenced at least as often as queries and DNS cache records hold it
  ghost predicate CnameCovered(s: State, from: nat)
    requires Shaped(s) && from <= |s.queries|
  {
    forall x: nat :: Tallied(s, OfCname(x)) >= Count(s.queries[from..], OfCname(x)) + Holders(s, x)
  }

  ghost predicate InvFrom(s: State, from: nat) {
    && Shaped(s)
    && from <= |s.queries|
    && Tables(s)
    && QueriesOk(s)
    && CachesOk(s)
    && Ordered(s, from)
    && Conserved(s, from)
    && CnameCovered(s, from)
  }

  /** The invariant, over the queries not yet retracted. */
  ghost predicate Inv(s: State) {
    InvFrom(s, s.removed) && (s.gc.None? ==> s.removed == 0)
  }

  lemma InvQuery(s: State, from: nat, i: nat)
    requires InvFrom(s, from) && i < |s.queries|
    ensures Shaped(s) && QueryOk(s, s.queries[i])
  {
  }

  lemma InvSlots(s: State, from: nat)
    requires InvFrom(s, from)
    ensures Shaped(s) && CachesOk(s) && |s.slots| == OVERTIME_SLOTS
  {
    hide Tables, Conserved, CnameCovered, QueriesOk, CachesOk, Ordered, Aligned;
  }

  // ---- Changing one query ----

  ghost predicate SameKeys<K, V>(t: Table<K, V>, r: Table<K, V>) {
    && r.live.Keys == t.live.Keys
    && r.lookup == t.lookup && r.free == t.free && r.used == t.used
    && forall id :: id in t.live ==> r.live[id].key == t.live[id].key
  }

  // Nothing but counters, flags and references differs
  ghost predicate SameFrame(s: State, r: State) {
    && r.removed == s.removed && r.gc == s.gc
    && |r.queries| == |s.queries|
    && SameKeys(s.clients, r.clients)
    && SameKeys(s.domains, r.domains)
    && SameKeys(s.caches, r.caches)
    && |s.upstreams| <= |r.upstreams|
    && |r.slots| == |s.slots|
    && (forall j :: 0 <= j < |s.slots| ==> r.slots[j].timestamp == s.slots[j].timestamp)
    && (forall c :: c in r.clients.live ==> |r.clients.live[c].data.overTime| == OVERTIME_SLOTS)
    && (forall c :: c in r.caches.live ==> -1 <= r.caches.live[c].data.cname)
  }

  ghost predicate SameIdentity(q: Query, p: Query) {
    && p.timestamp == q.timestamp && p.qtype == q.qtype
    && p.domainID == q.domainID && p.clientID == q.clientID && p.cacheID == q.cacheID
  }

  // The counters moved by exactly what the change of query q into p demands
  ghost predicate Moved(s: State, r: State, q: Query, p: Query)
    requires Shaped(s) && Shaped(r)
  {
    && (forall k: Tally :: !k.OfCname? ==> Tallied(r, k) == Tallied(s, k) - Hit(q, k) + Hit(p, k))
    && (forall x: nat :: Tallied(r, OfCname(x)) - Holders(r, x)
                         >= Tallied(s, OfCname(x)) - Holders(s, x) - Hit(q, OfCname(x)) + Hit(p, OfCname(x)))
  }

  lemma SameFrameShaped(s: State, r: State)
    requires Shaped(s) && SameFrame(s, r)
    ensures Shaped(r) && Base(r.slots) == Base(s.slots)
  {
  }

  lemma SameFrameTables(s: State, r: State)
    requires Tables(s) && SameFrame(s, r)
    ensures Tables(r)
  {
    SameKeysValid(s.clients, r.clients, HashStr);
    SameKeysValid(s.domains, r.domains, HashStr);
    SameKeysValid(s.caches, r.caches, HashKey);
  }

  lemma SuffixSet(qs: seq<Query>, from: nat, i: nat, p: Query)
    requires from <= i < |qs|
    ensures qs[i := p][from..] == qs[from..][i - from := p]
  {
  }

  lemma MovedConserves(s: State, r: State, from: nat, i: nat, p: Query)
    requires Shaped(s) && Shaped(r) && from <= i < |s.queries|
    requires r.queries == s.queries[i := p]
    requires Moved(s, r, s.queries[i], p)
    requires Conserved(s, from) && CnameCovered(s, from)
    ensures Conserved(r, from) && CnameCovered(r, from)
  {
    SuffixSet(s.queries, from, i, p);
    forall k: Tally
      ensures Count(r.queries[from..], k) == Count(s.queries[from..], k) - Hit(s.queries[i], k) + Hit(p, k)
    {
      CountSet(s.queries[from..], i - from, p, k);
    }
  }

  lemma SameFrameQueries(s: State, r: State, from: nat, i: nat, p: Query)
    requires Shaped(s) && Shaped(r) && SameFrame(s, r) && from <= i < |s.queries|
    requires QueriesOk(s)
    requires r.queries == s.queries[i := p] && SameIdentity(s.queries[i], p)
    requires -1 <= p.upstreamID < |r.upstreams| && (p.counted ==> 0 <= p.upstreamID) && -1 <= p.cname
    ensures QueriesOk(r)
  {
    hide Aligned;
    SameFrameShaped(s, r);
    forall j | 0 <= j < |r.queries|
      ensures QueryOk(r, r.queries[j])
    {
      assert QueryOk(s, s.queries[j]);
    }
  }

  lemma SameFrameOrdered(s: State, r: State, from: nat, i: nat, p: Query)
    requires r.gc == s.gc && i < |s.queries|
    requires r.queries == s.queries[i := p] && p.timestamp == s.queries[i].timestamp
    requires Ordered(s, from)
    ensures Ordered(r, from)
  {
    assert forall j :: 0 <= j < |s.queries| ==> r.queries[j].timestamp == s.queries[j].timestamp;
  }

  lemma SameFrameCaches(s: State, r: State)
    requires SameFrame(s, r) && CachesOk(s)
    ensures CachesOk(r)
  {
  }

  /** A change of one query with matching counter updates keeps the invariant. */
  lemma QueryChange(s: State, r: State, from: nat, i: nat, p: Query)
    requires InvFrom(s, from) && from <= i < |s.queries|
    requires SameFrame(s, r) && r.queries == s.queries[i := p]
    requires SameIdentity(s.queries[i], p)
    requires -1 <= p.upstreamID < |r.upstreams| && (p.counted ==> 0 <= p.upstreamID) && -1 <= p.cname
    requires Shaped(r) && Moved(s, r, s.queries[i], p)
    ensures InvFrom(r, from)
  {
    assert r.gc == s.gc && |r.queries| == |s.queries|;
    hide SameFrame, Tables, Conserved, CnameCovered, QueriesOk, CachesOk, Ordered, Moved, Aligned;
    SameFrameTables(s, r);
    MovedConserves(s, r, from, i, p);
    SameFrameQueries(s, r, from, i, p);
    SameFrameOrdered(s, r, from, i, p);
    SameFrameCaches(s, r);
  }

  // The counters moved by nothing
  ghost predicate Still(s: State, r: State)
    requires Shaped(s) && Shaped(r)
  {
    && (forall k: Tally :: !k.OfCname? ==> Tallied(r, k) == Tallied(s, k))
    && (forall x: nat :: Tallied(r, OfCname(x)) - Holders(r, x) >= Tallied(s, OfCname(x)) - Holders(s, x))
  }

  lemma StillConserves(s: State, r: State, from: nat)
    requires Shaped(s) && Shaped(r) && from <= |s.queries| && r.queries == s.queries && Still(s, r)
    requires Conserved(s, from) && CnameCovered(s, from)
    ensures Conserved(r, from) && CnameCovered(r, from)
  {
    hide Tallied, Count, Holders;
    forall k: Tally | !k.OfCname?
      ensures Tallied(r, k) == Count(r.queries[from..], k)
    {
      assert Tallied(s, k) == Count(s.queries[from..], k);
    }
  }

  lemma StillQueries(s: State, r: State, from: nat)
    requires Shaped(s) && Shaped(r) && SameFrame(s, r) && r.queries == s.queries
    requires QueriesOk(s)
    ensures QueriesOk(r)
  {
    hide Aligned;
    SameFrameShaped(s, r);
    forall j | 0 <= j < |r.queries|
      ensures QueryOk(r, r.queries[j])
    {
      assert QueryOk(s, s.queries[j]);
    }
  }

  /** A change of no query and no counter keeps the invariant. */
  lemma QuietChange(s: State, r: State, from: nat)
    requires InvFrom(s, from) && SameFrame(s, r) && r.queries == s.queries
    requires Shaped(r) && Still(s, r)
    ensures InvFrom(r, from)
  {
    assert r.gc == s.gc;
    assert Ordered(r, from);
    hide SameFrame, Tables, Conserved, CnameCovered, QueriesOk, CachesOk, Ordered, Still, Aligned;
    SameFrameTables(s, r);
    StillConserves(s, r, from);
    StillQueries(s, r, from);
    SameFrameCaches(s, r);
  }

  // Holders only depend on the references of the DNS cache records
  lemma HoldersSame(s: State, r: State)
    requires r.caches.live.Keys == s.caches.live.Keys
    requires forall c :: c in s.caches.live ==> r.caches.live[c].data.cname == s.caches.live[c].data.cname
    ensures forall x: int :: Holders(r, x) == Holders(s, x)
  {
    forall x: int
      ensures Holders(r, x) == Holders(s, x)
    {
      assert HoldersIn(r.caches.live, r.caches.live.Keys, x) == HoldersIn(s.caches.live, s.caches.live.Keys, x);
    }
  }

  // ---- Flags, reply, status ----

  lemma FlagsMove(s: State, i: nat, p: Query)
    requires Shaped(s) && i < |s.queries| && CachesOk(s)
    requires forall k: Tally :: Hits(p, k) == Hits(s.queries[i], k)
    ensures SameFrame(s, WithQuery(s, i, p)) && Shaped(WithQuery(s, i, p))
    ensures Moved(s, WithQuery(s, i, p), s.queries[i], p)
  {
    hide Aligned;
    HoldersSame(s, WithQuery(s, i, p));
  }

  lemma SameHits(q: Query, p: Query, k: Tally)
    requires SameIdentity(q, p)
    requires p.status == q.status && p.reply == q.reply && p.cname == q.cname
    requires p.counted == q.counted && p.upstreamID == q.upstreamID
    ensures Hits(p, k) == Hits(q, k)
  {
    hide IsBlocked, IsCached, Interval;
  }

  lemma FlagsKeep(s: State, from: nat, i: nat, p: Query)
    requires InvFrom(s, from) && from <= i < |s.queries|
    requires SameIdentity(s.queries[i], p)
    requires p.status == s.queries[i].status && p.reply == s.queries[i].reply && p.cname == s.queries[i].cname
    requires p.counted == s.queries[i].counted && p.upstreamID == s.queries[i].upstreamID
    ensures InvFrom(WithQuery(s, i, p), from)
  {
    assert QueryOk(s, s.queries[i]);
    hide SameFrame, Tables, Conserved, CnameCovered, QueriesOk, CachesOk, Ordered, Moved, Aligned, Hits;
    forall k: Tally {
      SameHits(s.queries[i], p, k);
    }
    FlagsMove(s, i, p);
    QueryChange(s, WithQuery(s, i, p), from, i, p);
  }

  lemma SetReplyTally(s: State, i: nat, x: Reply, k: Tally)
    requires Shaped(s) && i < |s.queries| && Shaped(SetReply(s, i, x))
    ensures Tallied(SetReply(s, i, x), k) == Tallied(s, k) - Hit(s.queries[i], k) + Hit(SetReply(s, i, x).queries[i], k)
  {
    hide Aligned, IsBlocked, IsCached, Interval;
    if k.OfReply? {
    } else {
      var q, p := s.queries[i], SetReply(s, i, x).queries[i];
      assert Hits(p, k) == Hits(q, k);
    }
  }

  lemma SetReplyMoves(s: State, i: nat, x: Reply)
    requires Shaped(s) && i < |s.queries| && CachesOk(s)
    ensures SameFrame(s, SetReply(s, i, x)) && Shaped(SetReply(s, i, x))
    ensures Moved(s, SetReply(s, i, x), s.queries[i], SetReply(s, i, x).queries[i])
  {
    hide Aligned, Tallied, Hit, Holders;
    HoldersSame(s, SetReply(s, i, x));
    forall k: Tally {
      SetReplyTally(s, i, x, k);
    }
  }

  lemma SetReplyKeeps(s: State, from: nat, i: nat, x: Reply)
    requires InvFrom(s, from) && from <= i < |s.queries|
    ensures InvFrom(SetReply(s, i, x), from)
  {
    assert QueryOk(s, s.queries[i]);
    hide SameFrame, Tables, Conserved, CnameCovered, QueriesOk, CachesOk, Ordered, Moved, Aligned;
    SetReplyMoves(s, i, x);
    QueryChange(s, SetReply(s, i, x), from, i, SetReply(s, i, x).queries[i]);
  }

  lemma MemoriseFrame(s: State, i: nat, st: Status, cfg: Config)
    requires Shaped(s) && CachesOk(s) && i < |s.queries|
    ensures var r := Memorise(s, i, st, cfg); r == s.(caches := r.caches) && SameFrame(s, r)
    ensures var r := Memorise(s, i, st, cfg);
            forall c :: c in s.caches.live ==> r.caches.live[c].data == s.caches.live[c].data.(verdict := r.caches.live[c].data.verdict)
  {
    hide Aligned, Base, Memorised;
  }

  // How the four counters of a slot follow a change of status
  lemma RestatusTallies(s: State, r: State, id: nat, q: Query, st: Status)
    requires Shaped(s) && Shaped(r) && id == Interval(q.timestamp) - Base(s.slots) < OVERTIME_SLOTS
    requires r.slots == s.slots[id := Restatus(s.slots[id], q.status, st)]
    ensures Base(r.slots) == Base(s.slots)
    ensures forall n: int :: Tallied(r, OfSlot(n)) == Tallied(s, OfSlot(n))
    ensures forall n: int :: Tallied(r, OfBlockedSlot(n)) == Tallied(s, OfBlockedSlot(n)) - Hit(q, OfBlockedSlot(n)) + Hit(q.(status := st), OfBlockedSlot(n))
    ensures forall n: int :: Tallied(r, OfCachedSlot(n)) == Tallied(s, OfCachedSlot(n)) - Hit(q, OfCachedSlot(n)) + Hit(q.(status := st), OfCachedSlot(n))
    ensures forall n: int :: Tallied(r, OfForwardedSlot(n)) == Tallied(s, OfForwardedSlot(n)) - Hit(q, OfForwardedSlot(n)) + Hit(q.(status := st), OfForwardedSlot(n))
  {
    assert Base(r.slots) == Base(s.slots);
    hide Aligned, IsBlocked, IsCached, Interval;
  }

  lemma SetStatusFrame(s: State, i: nat, st: Status, cfg: Config)
    requires Shaped(s) && CachesOk(s) && i < |s.queries|
    ensures SameFrame(s, SetStatus(s, i, st, cfg)) && Shaped(SetStatus(s, i, st, cfg))
    ensures SetStatus(s, i, st, cfg).queries == s.queries[i := s.queries[i].(status := st)]
    ensures forall x: int :: Holders(SetStatus(s, i, st, cfg), x) == Holders(s, x)
  {
    MemoriseFrame(s, i, st, cfg);
    SameFrameShaped(s, SetStatus(s, i, st, cfg));
    HoldersSame(s, SetStatus(s, i, st, cfg));
  }

  lemma SetStatusTally(s: State, i: nat, st: Status, cfg: Config, k: Tally)
    requires Shaped(s) && CachesOk(s) && i < |s.queries| && InWindow(s, s.queries[i].timestamp)
    requires Shaped(SetStatus(s, i, st, cfg)) && st != s.queries[i].status
    ensures var q := s.queries[i];
            Tallied(SetStatus(s, i, st, cfg), k) == Tallied(s, k) - Hit(q, k) + Hit(q.(status := st), k)
  {
    hide Aligned, GetId, IsBlocked, IsCached, Interval, CachesOk, Memorise, Memorised, Restatus, Current;
    var q, r := s.queries[i], SetStatus(s, i, st, cfg);
    GetIdOfCovered(s.slots, q.timestamp);
    MemoriseFrame(s, i, st, cfg);
    RestatusTallies(s, r, GetId(s.slots, q.timestamp.Floor), q, st);
    if k.OfSlot? || k.OfBlockedSlot? || k.OfCachedSlot? || k.OfForwardedSlot? {
    } else if k.OfStatus? {
    } else {
      assert Hits(q.(status := st), k) == Hits(q, k);
    }
  }

  lemma SetStatusMoves(s: State, i: nat, st: Status, cfg: Config)
    requires Shaped(s) && CachesOk(s) && i < |s.queries| && InWindow(s, s.queries[i].timestamp)
    ensures SameFrame(s, SetStatus(s, i, st, cfg)) && Shaped(SetStatus(s, i, st, cfg))
    ensures SetStatus(s, i, st, cfg).queries == s.queries[i := s.queries[i].(status := st)]
    ensures Moved(s, SetStatus(s, i, st, cfg), s.queries[i], s.queries[i].(status := st))
  {
    SetStatusFrame(s, i, st, cfg);
    hide Aligned, SameFrame, CachesOk, Tallied, Hit, Holders;
    if st != s.queries[i].status {
      forall k: Tally {
        SetStatusTally(s, i, st, cfg, k);
      }
    }
  }

  lemma SetStatusKeeps(s: State, from: nat, i: nat, st: Status, cfg: Config)
    requires InvFrom(s, from) && from <= i < |s.queries|
    ensures InvFrom(SetStatus(s, i, st, cfg), from)
    ensures SetStatus(s, i, st, cfg).queries == s.queries[i := s.queries[i].(status := st)]
  {
    assert QueryOk(s, s.queries[i]);
    hide SameFrame, Tables, Conserved, CnameCovered, QueriesOk, CachesOk, Ordered, Moved, Aligned, SetStatus;
    SetStatusMoves(s, i, st, cfg);
    QueryChange(s, SetStatus(s, i, st, cfg), from, i, s.queries[i].(status := st));
  }

  // ---- Upstream servers ----

  lemma FindUpstreamStill(s: State, ip: string, port: nat)
    requires Shaped(s) && CachesOk(s)
    ensures SameFrame(s, FindUpstream(s, ip, port)) && Shaped(FindUpstream(s, ip, port))
    ensures Still(s, FindUpstream(s, ip, port))
    ensures UpstreamIndex(s.upstreams, ip, port) < |FindUpstream(s, ip, port).upstreams|
  {
    var r := FindUpstream(s, ip, port);
    hide Aligned, UpstreamIndex, Holders, Hit;
    HoldersSame(s, r);
    assert r == s.(upstreams := r.upstreams);
    forall k: Tally
      ensures Tallied(r, k) == Tallied(s, k)
    {
      if k.OfUpstream? {
        assert k.u != |s.upstreams| ==> (0 <= k.u < |r.upstreams| ==> 0 <= k.u < |s.upstreams| && r.upstreams[k.u] == s.upstreams[k.u]);
      }
    }
  }

  lemma FindUpstreamKeeps(s: State, from: nat, ip: string, port: nat)
    requires InvFrom(s, from)
    ensures InvFrom(FindUpstream(s, ip, port), from)
    ensures UpstreamIndex(s.upstreams, ip, port) < |FindUpstream(s, ip, port).upstreams|
    ensures FindUpstream(s, ip, port).queries == s.queries
  {
    hide SameFrame, Tables, Conserved, CnameCovered, QueriesOk, CachesOk, Ordered, Still, Aligned, UpstreamIndex;
    FindUpstreamStill(s, ip, port);
    QuietChange(s, FindUpstream(s, ip, port), from);
  }

  // Query i becomes p and only upstream counts follow
  ghost predicate UpstreamMove(s: State, r: State, i: nat, p: Query) {
    && i < |s.queries| && r == s.(upstreams := r.upstreams, queries := s.queries[i := p])
    && p == s.queries[i].(upstreamID := p.upstreamID, counted := p.counted)
    && |r.upstreams| == |s.upstreams|
    && -1 <= p.upstreamID < |r.upstreams|
    && (p.counted ==> 0 <= p.upstreamID)
    && forall u :: 0 <= u < |s.upstreams| ==>
         r.upstreams[u].count == s.upstreams[u].count - Hit(s.queries[i], OfUpstream(u)) + Hit(p, OfUpstream(u))
  }

  lemma UpstreamTally(s: State, r: State, i: nat, p: Query, k: Tally)
    requires Shaped(s) && Shaped(r) && UpstreamMove(s, r, i, p) && QueryOk(s, s.queries[i])
    ensures Tallied(r, k) == Tallied(s, k) - Hit(s.queries[i], k) + Hit(p, k)
  {
    hide Aligned, IsBlocked, IsCached, Interval;
    if k.OfUpstream? {
    } else {
      assert Hits(p, k) == Hits(s.queries[i], k);
    }
  }

  lemma UpstreamMoves(s: State, r: State, i: nat, p: Query)
    requires Shaped(s) && CachesOk(s) && UpstreamMove(s, r, i, p) && QueryOk(s, s.queries[i])
    ensures SameFrame(s, r) && Shaped(r) && Moved(s, r, s.queries[i], p)
  {
    hide Aligned, Tallied, Hit, Holders;
    HoldersSame(s, r);
    forall k: Tally {
      UpstreamTally(s, r, i, p, k);
    }
  }

  lemma UpstreamMoveKeeps(s: State, r: State, from: nat, i: nat, p: Query)
    requires InvFrom(s, from) && from <= i < |s.queries| && UpstreamMove(s, r, i, p)
    ensures InvFrom(r, from)
  {
    assert QueryOk(s, s.queries[i]);
    assert -1 <= p.upstreamID < |r.upstreams| && (p.counted ==> 0 <= p.upstreamID);
    hide SameFrame, Tables, Conserved, CnameCovered, QueriesOk, CachesOk, Ordered, Moved, Aligned;
    UpstreamMoves(s, r, i, p);
    QueryChange(s, r, from, i, p);
  }

  // ---- References on CNAME targets ----

  lemma HolderExists(s: State, c: nat)
    requires c in s.caches.live
    ensures Holders(s, s.caches.live[c].data.cname) > 0
  {
    assert c in HoldersIn(s.caches.live, s.caches.live.Keys, s.caches.live[c].data.cname);
  }

  /** A DNS cache record never refers to a domain that is gone. */
  lemma CacheCnameLive(s: State, from: nat, c: nat)
    requires InvFrom(s, from) && c in s.caches.live && s.caches.live[c].data.cname >= 0
    ensures s.caches.live[c].data.cname in s.domains.live
  {
    hide Aligned, Tables, QueriesOk, CachesOk, Ordered, Conserved, Holders, Count;
    HolderExists(s, c);
    var x: nat := s.caches.live[c].data.cname;
    assert Tallied(s, OfCname(x)) > 0;
  }

  lemma CacheCnameNone(s: State, from: nat, c: nat)
    requires InvFrom(s, from) && c in s.caches.live
    ensures -1 <= s.caches.live[c].data.cname
  {
    hide Tables, Conserved, CnameCovered, QueriesOk, Ordered, Aligned;
  }

  /** A live query never refers to a domain that is gone. */
  lemma QueryCnameLive(s: State, from: nat, i: nat)
    requires InvFrom(s, from) && from <= i < |s.queries| && s.queries[i].cname >= 0
    ensures s.queries[i].cname in s.domains.live
  {
    hide Aligned, Tables, QueriesOk, CachesOk, Ordered, Conserved, Holders, Count;
    var x: nat := s.queries[i].cname;
    assert s.queries[from..][i - from] == s.queries[i];
    CountPositive(s.queries[from..], i - from, OfCname(x));
    assert Tallied(s, OfCname(x)) > 0;
  }

  lemma HoldCnameTally(s: State, i: nat, x: int, k: Tally)
    requires Shaped(s) && i < |s.queries| && Shaped(HoldCname(s, i, x))
    requires x == -1 || (0 <= x && x in s.domains.live)
    ensures var q, r := s.queries[i], HoldCname(s, i, x);
            if k.OfCname? then k.x >= 0 ==> Tallied(r, k) == Tallied(s, k) + One(k.x == x)
            else Tallied(r, k) == Tallied(s, k) && Hit(q.(cname := x), k) == Hit(q, k)
  {
    hide Aligned, IsBlocked, IsCached, Interval;
  }

  lemma HoldCnameMoves(s: State, i: nat, x: int)
    requires Shaped(s) && CachesOk(s) && i < |s.queries| && (x == -1 || (0 <= x && x in s.domains.live))
    ensures SameFrame(s, HoldCname(s, i, x)) && Shaped(HoldCname(s, i, x))
    ensures Moved(s, HoldCname(s, i, x), s.queries[i], s.queries[i].(cname := x))
  {
    var r := HoldCname(s, i, x);
    assert SameFrame(s, r) && Shaped(r) by {
      hide Aligned;
    }
    HoldersSame(s, r);
    hide Aligned, Tallied, Holders, HoldCname, SameFrame, CachesOk;
    forall k: Tally {
      HoldCnameTally(s, i, x, k);
    }
  }

  lemma HoldCnameKeeps(s: State, from: nat, i: nat, x: int)
    requires InvFrom(s, from) && from <= i < |s.queries| && (x == -1 || (0 <= x && x in s.domains.live))
    ensures InvFrom(HoldCname(s, i, x), from)
    ensures HoldCname(s, i, x).queries == s.queries[i := s.queries[i].(cname := x)]
  {
    assert QueryOk(s, s.queries[i]);
    assert HoldCname(s, i, x).queries == s.queries[i := s.queries[i].(cname := x)];
    hide SameFrame, Tables, Conserved, CnameCovered, QueriesOk, CachesOk, Ordered, Moved, Aligned, HoldCname;
    HoldCnameMoves(s, i, x);
    QueryChange(s, HoldCname(s, i, x), from, i, s.queries[i].(cname := x));
  }

  lemma HoldersMove(s: State, r: State, c: nat, x: int)
    requires c in s.caches.live && r.caches.live.Keys == s.caches.live.Keys
    requires forall d :: d in s.caches.live && d != c ==> r.caches.live[d].data.cname == s.caches.live[d].data.cname
    requires r.caches.live[c].data.cname == x
    ensures forall z: int :: Holders(r, z) == Holders(s, z) - One(s.caches.live[c].data.cname == z) + One(x == z)
  {
    forall z: int
      ensures Holders(r, z) == Holders(s, z) - One(s.caches.live[c].data.cname == z) + One(x == z)
    {
      var a := HoldersIn(s.caches.live, s.caches.live.Keys, z);
      var b := HoldersIn(r.caches.live, r.caches.live.Keys, z);
      if s.caches.live[c].data.cname == z {
        if x == z {
          assert a == b;
        } else {
          assert b == a - {c};
        }
      } else if x == z {
        assert b == a + {c};
      } else {
        assert a == b;
      }
    }
  }

  lemma CacheHoldTally(s: State, c: nat, x: int, k: Tally)
    requires Shaped(s) && c in s.caches.live && Shaped(CacheHold(s, c, x)) && s.caches.live[c].data.cname != x
    requires 0 <= x && x in s.domains.live
    ensures var r, y := CacheHold(s, c, x), s.caches.live[c].data.cname;
            if k.OfCname? then k.x >= 0 ==> Tallied(r, k) >= Tallied(s, k) - One(k.x == y) + One(k.x == x)
            else Tallied(r, k) == Tallied(s, k)
  {
    hide Aligned;
  }

  lemma BumpCnameFrame(s: State, x: int, d: int)
    ensures var r := BumpCname(s, x, d); r == s.(domains := r.domains) && SameKeys(s.domains, r.domains)
  {
  }

  lemma CacheHoldFrame(s: State, c: nat, x: int)
    requires Shaped(s) && CachesOk(s) && c in s.caches.live && 0 <= x && x in s.domains.live
    ensures SameFrame(s, CacheHold(s, c, x)) && Shaped(CacheHold(s, c, x))
    ensures CacheHold(s, c, x).queries == s.queries
    ensures CacheHold(s, c, x).caches.live[c].data.cname == x
    ensures forall d :: d in s.caches.live && d != c ==> CacheHold(s, c, x).caches.live[d] == s.caches.live[d]
  {
    hide Aligned, BumpCname;
    var data := s.caches.live[c].data;
    var s1 := BumpCname(s, data.cname, -1);
    BumpCnameFrame(s, data.cname, -1);
    BumpCnameFrame(WithCache(s1, c, data.(cname := x)), x, 1);
  }

  lemma CacheHoldStill(s: State, c: nat, x: int)
    requires Shaped(s) && CachesOk(s) && c in s.caches.live && 0 <= x && x in s.domains.live
    ensures SameFrame(s, CacheHold(s, c, x)) && Shaped(CacheHold(s, c, x)) && Still(s, CacheHold(s, c, x))
    ensures CacheHold(s, c, x).queries == s.queries
  {
    var r := CacheHold(s, c, x);
    CacheHoldFrame(s, c, x);
    if s.caches.live[c].data.cname != x {
      HoldersMove(s, r, c, x);
      hide Aligned, Tallied, Holders, SameFrame, CachesOk, CacheHold, Shaped;
      forall k: Tally {
        CacheHoldTally(s, c, x, k);
      }
    }
  }

  lemma CacheHoldKeeps(s: State, from: nat, c: nat, x: int)
    requires InvFrom(s, from) && c in s.caches.live && 0 <= x && x in s.domains.live
    ensures InvFrom(CacheHold(s, c, x), from)
    ensures CacheHold(s, c, x).queries == s.queries
  {
    hide SameFrame, Tables, Conserved, CnameCovered, QueriesOk, CachesOk, Ordered, Still, Aligned;
    CacheHoldStill(s, c, x);
    QuietChange(s, CacheHold(s, c, x), from);
  }

  // ---- Verdicts and time stamps of records ----

  lemma VerdictStill(s: State, c: nat, v: Verdict)
    requires Shaped(s) && CachesOk(s) && c in s.caches.live
    ensures var r := WithCache(s, c, s.caches.live[c].data.(verdict := v));
            SameFrame(s, r) && Shaped(r) && Still(s, r)
  {
    var r := WithCache(s, c, s.caches.live[c].data.(verdict := v));
    hide Aligned, Holders;
    HoldersSame(s, r);
    assert r == s.(caches := r.caches) && r.caches.live.Keys == s.caches.live.Keys;
    forall k: Tally
      ensures Tallied(r, k) == Tallied(s, k)
    {
    }
  }

  lemma VerdictKeeps(s: State, from: nat, c: nat, v: Verdict)
    requires InvFrom(s, from) && c in s.caches.live
    ensures InvFrom(WithCache(s, c, s.caches.live[c].data.(verdict := v)), from)
  {
    hide SameFrame, Tables, Conserved, CnameCovered, QueriesOk, CachesOk, Ordered, Still, Aligned;
    VerdictStill(s, c, v);
    QuietChange(s, WithCache(s, c, s.caches.live[c].data.(verdict := v)), from);
  }

  lemma TouchStill(s: State, d: nat, now: real)
    requires Shaped(s) && CachesOk(s) && d in s.domains.live
    ensures var r := WithDomain(s, d, s.domains.live[d].data.(lastQuery := now));
            SameFrame(s, r) && Shaped(r) && Still(s, r)
  {
    var r := WithDomain(s, d, s.domains.live[d].data.(lastQuery := now));
    hide Aligned, Holders;
    HoldersSame(s, r);
  }

  lemma TouchKeeps(s: State, from: nat, d: nat, now: real)
    requires InvFrom(s, from) && d in s.domains.live
    ensures InvFrom(WithDomain(s, d, s.domains.live[d].data.(lastQuery := now)), from)
  {
    hide SameFrame, Tables, Conserved, CnameCovered, QueriesOk, CachesOk, Ordered, Still, Aligned;
    TouchStill(s, d, now);
    QuietChange(s, WithDomain(s, d, s.domains.live[d].data.(lastQuery := now)), from);
  }

  lemma ReloadStill(s: State)
    requires Shaped(s) && CachesOk(s)
    ensures SameFrame(s, Reload(s)) && Shaped(Reload(s)) && Still(s, Reload(s))
  {
    hide Aligned, Holders;
    HoldersSame(s, Reload(s));
  }

  // Forgetting who was released changes no count
  lemma ReloadQueries(s: State, from: nat)
    requires Shaped(s) && Shaped(Reload(s)) && SameFrame(s, Reload(s)) && from <= |s.queries|
    requires QueriesOk(s) && Ordered(s, from)
    ensures QueriesOk(Reload(s)) && Ordered(Reload(s), from)
    ensures forall k: Tally :: Count(Reload(s).queries[from..], k) == Count(s.queries[from..], k)
  {
    var r := Reload(s);
    hide Aligned;
    SameFrameShaped(s, r);
    forall j | 0 <= j < |r.queries|
      ensures QueryOk(r, r.queries[j])
    {
      assert QueryOk(s, s.queries[j]);
    }
    forall k: Tally
      ensures Count(r.queries[from..], k) == Count(s.queries[from..], k)
    {
      CountAlike(s.queries[from..], r.queries[from..], k);
    }
  }

  lemma ReloadConserves(s: State, from: nat)
    requires Shaped(s) && Shaped(Reload(s)) && from <= |s.queries| && Still(s, Reload(s))
    requires Conserved(s, from) && CnameCovered(s, from)
    requires forall k: Tally :: Count(Reload(s).queries[from..], k) == Count(s.queries[from..], k)
    ensures Conserved(Reload(s), from) && CnameCovered(Reload(s), from)
  {
    hide Tallied, Count, Holders;
    assert |Reload(s).queries| == |s.queries|;
    hide Reload;
  }

  lemma ReloadKeeps(s: State, from: nat)
    requires InvFrom(s, from)
    ensures InvFrom(Reload(s), from)
  {
    hide SameFrame, Tables, Conserved, CnameCovered, QueriesOk, CachesOk, Ordered, Still, Aligned;
    ReloadStill(s);
    ReloadQueries(s, from);
    ReloadConserves(s, from);
    SameFrameTables(s, Reload(s));
    SameFrameCaches(s, Reload(s));
  }

  // ---- New records ----

  // Records are only added
  ghost predicate Grown(s: State, r: State) {
    && r == s.(clients := r.clients, domains := r.domains, caches := r.caches)
    && s.clients.live.Keys <= r.clients.live.Keys
    && s.domains.live.Keys <= r.domains.live.Keys
    && (forall c :: c in s.caches.live ==> c in r.caches.live && r.caches.live[c] == s.caches.live[c])
  }

  lemma GrownQueries(s: State, r: State, from: nat)
    requires Shaped(s) && Shaped(r) && Grown(s, r) && QueriesOk(s)
    ensures QueriesOk(r)
  {
    hide Aligned;
    forall j | 0 <= j < |r.queries|
      ensures QueryOk(r, r.queries[j])
    {
      assert QueryOk(s, s.queries[j]);
    }
  }

  lemma GrownKeeps(s: State, r: State, from: nat)
    requires InvFrom(s, from) && Grown(s, r)
    requires Shaped(r) && Tables(r) && CachesOk(r) && Still(s, r)
    ensures InvFrom(r, from)
  {
    assert Ordered(r, from);
    hide Tables, Conserved, CnameCovered, QueriesOk, CachesOk, Ordered, Still, Aligned;
    StillConserves(s, r, from);
    GrownQueries(s, r, from);
  }

  lemma KnowDomainFrame(s: State, name: string)
    requires Shaped(s) && CachesOk(s) && FindId(s.domains, name).None? && NextId(s.domains) !in s.domains.live
    ensures var r := KnowDomain(s, name); Grown(s, r) && Shaped(r) && CachesOk(r)
  {
    hide Aligned;
  }

  lemma KnowDomainTally(s: State, name: string, k: Tally)
    requires Shaped(s) && FindId(s.domains, name).None? && NextId(s.domains) !in s.domains.live
    requires Shaped(KnowDomain(s, name))
    ensures Tallied(KnowDomain(s, name), k) == Tallied(s, k)
  {
    hide Aligned, NextId, HashStr;
  }

  lemma KnowDomainStill(s: State, name: string)
    requires Shaped(s) && FindId(s.domains, name).None? && NextId(s.domains) !in s.domains.live
    requires Shaped(KnowDomain(s, name))
    ensures Still(s, KnowDomain(s, name))
  {
    var r := KnowDomain(s, name);
    assert r.caches == s.caches;
    hide Shaped, NextId, HashStr, Tallied, KnowDomain;
    forall k: Tally
      ensures Tallied(r, k) == Tallied(s, k)
    {
      KnowDomainTally(s, name, k);
    }
    HoldersSame(s, r);
  }

  lemma KnowDomainTables(s: State, name: string)
    requires Tables(s) && FindId(s.domains, name).None?
    ensures Tables(KnowDomain(s, name)) && NextId(s.domains) !in s.domains.live
  {
    hide Interning.Valid, NextId, Created;
    CreatedValid(s.domains, name, Domain(0, 0, 0.0), HashStr);
  }

  lemma KnowDomainNew(s: State, from: nat, name: string)
    requires InvFrom(s, from) && FindId(s.domains, name).None?
    ensures InvFrom(KnowDomain(s, name), from) && Grown(s, KnowDomain(s, name))
  {
    hide Conserved, CnameCovered, QueriesOk, CachesOk, Ordered, Still, Aligned, NextId, Tables, Grown, KnowDomain;
    KnowDomainTables(s, name);
    KnowDomainFrame(s, name);
    KnowDomainStill(s, name);
    GrownKeeps(s, KnowDomain(s, name), from);
  }

  lemma KnowDomainKeeps(s: State, from: nat, name: string)
    requires InvFrom(s, from)
    ensures InvFrom(KnowDomain(s, name), from)
    ensures Grown(s, KnowDomain(s, name))
    ensures DomainId(s, name) in KnowDomain(s, name).domains.live
    ensures KnowDomain(s, name).domains.live[DomainId(s, name)].key == name
  {
    hide InvFrom;
    if FindId(s.domains, name).None? {
      KnowDomainNew(s, from, name);
    }
  }

  lemma KnowClientFrame(s: State, ip: string)
    requires Shaped(s) && CachesOk(s) && FindId(s.clients, ip).None? && NextId(s.clients) !in s.clients.live
    ensures var r := KnowClient(s, ip); Grown(s, r) && Shaped(r) && CachesOk(r)
  {
    hide Aligned;
  }

  lemma KnowClientTally(s: State, ip: string, k: Tally)
    requires Shaped(s) && FindId(s.clients, ip).None? && NextId(s.clients) !in s.clients.live
    requires Shaped(KnowClient(s, ip))
    ensures Tallied(KnowClient(s, ip), k) == Tallied(s, k)
  {
    hide Aligned, NextId, HashStr;
  }

  lemma KnowClientStill(s: State, ip: string)
    requires Shaped(s) && FindId(s.clients, ip).None? && NextId(s.clients) !in s.clients.live
    requires Shaped(KnowClient(s, ip))
    ensures Still(s, KnowClient(s, ip))
  {
    var r := KnowClient(s, ip);
    assert r.caches == s.caches;
    hide Shaped, NextId, HashStr, Tallied, KnowClient;
    forall k: Tally
      ensures Tallied(r, k) == Tallied(s, k)
    {
      KnowClientTally(s, ip, k);
    }
    HoldersSame(s, r);
  }

  lemma KnowClientTables(s: State, ip: string)
    requires Tables(s) && FindId(s.clients, ip).None?
    ensures Tables(KnowClient(s, ip)) && NextId(s.clients) !in s.clients.live
  {
    hide Interning.Valid, NextId, Created;
    CreatedValid(s.clients, ip, Client(0, Zeros()), HashStr);
  }

  lemma KnowClientNew(s: State, from: nat, ip: string)
    requires InvFrom(s, from) && FindId(s.clients, ip).None?
    ensures InvFrom(KnowClient(s, ip), from) && Grown(s, KnowClient(s, ip))
  {
    hide Conserved, CnameCovered, QueriesOk, CachesOk, Ordered, Still, Aligned, NextId, Tables, Grown, KnowClient;
    KnowClientTables(s, ip);
    KnowClientFrame(s, ip);
    KnowClientStill(s, ip);
    GrownKeeps(s, KnowClient(s, ip), from);
  }

  lemma KnowClientKeeps(s: State, from: nat, ip: string)
    requires InvFrom(s, from)
    ensures InvFrom(KnowClient(s, ip), from)
    ensures Grown(s, KnowClient(s, ip))
    ensures ClientId(s, ip) in KnowClient(s, ip).clients.live
    ensures KnowClient(s, ip).clients.live[ClientId(s, ip)].key == ip
  {
    hide InvFrom;
    if FindId(s.clients, ip).None? {
      KnowClientNew(s, from, ip);
    }
  }

  lemma KnowCacheHolders(s: State, key: CacheKey)
    requires NextId(s.caches) !in s.caches.live && FindId(s.caches, key).None?
    ensures forall x: nat :: Holders(KnowCache(s, key), x) == Holders(s, x)
  {
    var r := KnowCache(s, key);
    forall x: nat
      ensures Holders(r, x) == Holders(s, x)
    {
      assert HoldersIn(r.caches.live, r.caches.live.Keys, x) == HoldersIn(s.caches.live, s.caches.live.Keys, x);
    }
  }

  lemma KnowCacheFrame(s: State, key: CacheKey)
    requires Shaped(s) && CachesOk(s) && FindId(s.caches, key).None? && NextId(s.caches) !in s.caches.live
    requires key.domainID in s.domains.live && key.clientID in s.clients.live
    ensures var r := KnowCache(s, key); Grown(s, r) && Shaped(r) && CachesOk(r)
  {
    hide Aligned;
  }

  lemma KnowCacheStill(s: State, key: CacheKey)
    requires Shaped(s) && FindId(s.caches, key).None? && NextId(s.caches) !in s.caches.live
    requires Shaped(KnowCache(s, key))
    ensures Still(s, KnowCache(s, key))
  {
    hide Aligned, NextId, HashKey;
    KnowCacheHolders(s, key);
    hide Holders;
    var r := KnowCache(s, key);
    assert r == s.(caches := r.caches);
    forall k: Tally
      ensures Tallied(r, k) == Tallied(s, k)
    {
      if k.OfCache? {
        assert k.k != NextId(s.caches) ==> (k.k in r.caches.live <==> k.k in s.caches.live);
      }
    }
  }

  lemma KnowCacheTables(s: State, key: CacheKey)
    requires Tables(s) && FindId(s.caches, key).None?
    ensures Tables(KnowCache(s, key)) && NextId(s.caches) !in s.caches.live
  {
    hide Interning.Valid, NextId, Created;
    CreatedValid(s.caches, key, CacheData(0, -1, NoVerdict), HashKey);
  }

  lemma KnowCacheNew(s: State, from: nat, key: CacheKey)
    requires InvFrom(s, from) && FindId(s.caches, key).None?
    requires key.domainID in s.domains.live && key.clientID in s.clients.live
    ensures InvFrom(KnowCache(s, key), from) && Grown(s, KnowCache(s, key))
  {
    hide Conserved, CnameCovered, QueriesOk, CachesOk, Ordered, Still, Aligned, NextId, Tables, Grown, KnowCache;
    KnowCacheTables(s, key);
    KnowCacheFrame(s, key);
    KnowCacheStill(s, key);
    GrownKeeps(s, KnowCache(s, key), from);
  }

  lemma KnowCacheKeeps(s: State, from: nat, key: CacheKey)
    requires InvFrom(s, from)
    requires key.domainID in s.domains.live && key.clientID in s.clients.live
    ensures InvFrom(KnowCache(s, key), from)
    ensures Grown(s, KnowCache(s, key))
    ensures CacheId(s, key) in KnowCache(s, key).caches.live
    ensures KnowCache(s, key).caches.live[CacheId(s, key)].key == key
  {
    hide InvFrom;
    if FindId(s.caches, key).None? {
      KnowCacheNew(s, from, key);
    }
  }

  // ---- Appending a query ----

  // Every counter, and no reference, moves by what the new query hits
  ghost predicate Gained(s: State, r: State, q: Query)
    requires Shaped(s) && Shaped(r)
  {
    && (forall k: Tally :: !k.OfCname? ==> Tallied(r, k) == Tallied(s, k) + Hit(q, k))
    && (forall x: nat :: Tallied(r, OfCname(x)) - Holders(r, x) >= Tallied(s, OfCname(x)) - Holders(s, x) + Hit(q, OfCname(x)))
  }

  ghost predicate Appendable(s: State, q: Query)
    requires Shaped(s)
  {
    && QueryOk(s, q)
    && !q.counted && q.cname == -1 && q.upstreamID == -1 && q.status == Unknown
    && (s.queries != [] ==> s.queries[|s.queries| - 1].timestamp <= q.timestamp)
    && (s.gc.Some? ==> s.gc.value as real <= q.timestamp)
  }

  lemma EnqueueFrame(s: State, q: Query)
    requires Shaped(s) && CachesOk(s) && QueryOk(s, q)
    ensures var r := Enqueue(s, q);
            && SameKeys(s.clients, r.clients) && SameKeys(s.domains, r.domains) && SameKeys(s.caches, r.caches)
            && Shaped(r) && CachesOk(r) && Base(r.slots) == Base(s.slots)
            && (forall x: int :: Holders(r, x) == Holders(s, x))
  {
    hide Holders, GetId, CachesOk, SameKeys, Aligned;
    EnqueueKeys(s, q);
    EnqueueShaped(s, q);
    HoldersSame(s, Enqueue(s, q));
  }

  lemma EnqueueKeys(s: State, q: Query)
    requires Shaped(s) && CachesOk(s) && QueryOk(s, q)
    ensures var r := Enqueue(s, q);
            && SameKeys(s.clients, r.clients) && SameKeys(s.domains, r.domains) && SameKeys(s.caches, r.caches)
            && CachesOk(r)
            && r.caches.live.Keys == s.caches.live.Keys
            && (forall c :: c in s.caches.live ==> r.caches.live[c].data.cname == s.caches.live[c].data.cname)
  {
    hide Aligned, GetId, Interval;
  }

  lemma EnqueueShaped(s: State, q: Query)
    requires Shaped(s) && QueryOk(s, q)
    ensures var r := Enqueue(s, q); Shaped(r) && Base(r.slots) == Base(s.slots)
  {
    hide Interval;
  }

  lemma EnqueueTally(s: State, q: Query, k: Tally)
    requires Shaped(s) && QueryOk(s, q) && Shaped(Enqueue(s, q)) && !q.counted && q.cname == -1 && q.status == Unknown
    requires Base(Enqueue(s, q).slots) == Base(s.slots)
    ensures !(k.OfCname? && k.x < 0) ==> Tallied(Enqueue(s, q), k) == Tallied(s, k) + Hit(q, k)
  {
    hide Aligned, Interval, GetId;
    GetIdOfCovered(s.slots, q.timestamp);
  }

  lemma EnqueueGains(s: State, q: Query)
    requires Shaped(s) && CachesOk(s) && Appendable(s, q)
    ensures Shaped(Enqueue(s, q)) && Gained(s, Enqueue(s, q), q)
  {
    EnqueueFrame(s, q);
    hide Aligned, Tallied, Holders, Enqueue, Hit, CachesOk;
    forall k: Tally {
      EnqueueTally(s, q, k);
    }
  }

  lemma AppendConserves(s: State, r: State, from: nat, q: Query)
    requires Shaped(s) && Shaped(r) && from <= |s.queries| && r.queries == s.queries + [q] && Gained(s, r, q)
    requires Conserved(s, from) && CnameCovered(s, from)
    ensures Conserved(r, from) && CnameCovered(r, from)
  {
    hide Tallied, Holders, Hit, Aligned;
    assert r.queries[from..] == s.queries[from..] + [q];
    forall k: Tally
      ensures Count(r.queries[from..], k) == Count(s.queries[from..], k) + Hit(q, k)
    {
      CountConcat(s.queries[from..], [q], k);
      CountOne(q, k);
    }
  }

  lemma EnqueueQueries(s: State, from: nat, q: Query)
    requires Shaped(s) && CachesOk(s) && from <= |s.queries| && QueriesOk(s) && QueryOk(s, q) && Shaped(Enqueue(s, q))
    ensures QueriesOk(Enqueue(s, q))
  {
    EnqueueFrame(s, q);
    hide Aligned;
    var r := Enqueue(s, q);
    forall j | 0 <= j < |r.queries|
      ensures QueryOk(r, r.queries[j])
    {
      if j < |s.queries| {
        assert QueryOk(s, s.queries[j]);
      }
    }
  }

  lemma EnqueueTables(s: State, q: Query)
    requires Shaped(s) && CachesOk(s) && QueryOk(s, q) && Tables(s)
    ensures Tables(Enqueue(s, q))
  {
    var r := Enqueue(s, q);
    EnqueueFrame(s, q);
    hide Aligned, QueryOk, CachesOk, Interning.Valid;
    SameKeysValid(s.clients, r.clients, HashStr);
    SameKeysValid(s.domains, r.domains, HashStr);
    SameKeysValid(s.caches, r.caches, HashKey);
  }

  lemma EnqueueOrdered(s: State, from: nat, q: Query)
    requires Shaped(s) && Appendable(s, q) && Ordered(s, from)
    ensures Ordered(Enqueue(s, q), from)
  {
    hide Aligned;
  }

  lemma EnqueueKeeps(s: State, from: nat, q: Query)
    requires InvFrom(s, from) && Appendable(s, q)
    ensures InvFrom(Enqueue(s, q), from)
  {
    EnqueueFrame(s, q);
    assert Enqueue(s, q).queries == s.queries + [q];
    hide Tables, Conserved, CnameCovered, QueriesOk, CachesOk, Ordered, Gained, Aligned, Enqueue;
    EnqueueGains(s, q);
    AppendConserves(s, Enqueue(s, q), from, q);
    EnqueueQueries(s, from, q);
    EnqueueTables(s, q);
    EnqueueOrdered(s, from, q);
  }
}
