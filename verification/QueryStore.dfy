// The store as the program keeps it: fields that every hook and the collector update in
// place, each method proved against the state it must leave behind.
module QueryStores {
  import opened Records
  import opened Lookup
  import opened Interning
  import opened OverTime
  import opened Blocking
  import opened Hashing
  import opened Store
  import opened Conservation
  import opened Collection
  import opened Hooks
  import opened Runs

  class QueryStore {
    var queries: seq<Query>
    var removed: nat
    var gc: Option<int>
    var clients: Table<string, Client>
    var domains: Table<string, Domain>
    var caches: Table<CacheKey, CacheData>
    var upstreams: seq<Upstream>
    var status: map<Status, int>
    var reply: map<Reply, int>
    var qtype: map<QType, int>
    var slots: seq<Slot>

    ghost function Snap(): State
      reads this
    {
      State(queries, removed, gc, clients, domains, caches, upstreams, status, reply, qtype, slots)
    }

    ghost predicate Valid()
      reads this
    {
      Inv(Snap())
    }

    constructor (now: nat)
      requires now >= 86400
      ensures Valid() && Snap() == Store.Initial(now)
    {
      queries, removed, gc := [], 0, None;
      clients, domains, caches, upstreams := Empty(), Empty(), Empty(), [];
      status, reply, qtype := map[], map[], map[];
      slots := OverTime.Initial(now);
      new;
      InitialInv(now);
    }

    // ---- Status and reply ----

    // The slot counters follow a change of status
    method RecountSlot(id: nat, was: Status, st: Status)
      requires id < |slots|
      modifies this`slots
      ensures slots == old(slots)[id := Restatus(old(slots)[id], was, st)]
    {
      hide IsBlocked, IsCached;
      var slot := slots[id];
      var blocked := CountedStatus(slot.blocked, IsBlocked(was), IsBlocked(st));
      var cached := CountedStatus(slot.cached, IsCached(was), IsCached(st));
      var forwarded := CountedStatus(slot.forwarded, was == Forwarded, st == Forwarded);
      slots := slots[id := slot.(blocked := blocked, cached := cached, forwarded := forwarded)];
    }

    static method CountedStatus(n: int, was: bool, now: bool) returns (r: int)
      ensures r == n - One(was) + One(now)
    {
      r := n;
      if was { r := r - 1; }
      if now { r := r + 1; }
    }

    // The DNS cache record remembers a status that is a verdict
    method RememberStatus(i: nat, st: Status, cfg: Config)
      requires i < |queries|
      modifies this`caches
      ensures Snap() == Memorise(old(Snap()), i, st, cfg)
    {
      hide Intermittent, IsExternal, ShmTime;
      var q := queries[i];
      if q.cacheID in caches.live {
        var c := caches.live[q.cacheID].data;
        if !Intermittent(st) && c.verdict.blocking != st {
          var v := c.verdict.(blocking := st);
          if cfg.ttl > 0 && v.expires == 0 && IsExternal(st) {
            v := v.(expires := ShmTime(q.timestamp.Floor + cfg.ttl));
          }
          caches := Updated(caches, q.cacheID, c.(verdict := v));
        } else {
          UpdatedSelf(caches, q.cacheID);
        }
      }
    }

    /** query_set_status() */
    method SetStatus(i: nat, st: Status, cfg: Config)
      requires |slots| == OVERTIME_SLOTS && i < |queries|
      modifies this
      ensures Snap() == Store.SetStatus(old(Snap()), i, st, cfg)
    {
      hide GetId, Restatus, Memorise, Bump;
      var q := queries[i];
      if q.status == st {
        return;
      }
      RememberStatus(i, st, cfg);
      status := Bump(status, q.status, -1);
      status := Bump(status, st, 1);
      RecountSlot(GetId(slots, q.timestamp.Floor), q.status, st);
      queries := queries[i := q.(status := st)];
    }

    /** _query_set_reply() */
    method SetReply(i: nat, r: Reply)
      requires i < |queries|
      modifies this
      ensures Snap() == Store.SetReply(old(Snap()), i, r)
    {
      var q := queries[i];
      reply := Bump(reply, q.reply, -1);
      reply := Bump(reply, r, 1);
      queries := queries[i := q.(reply := r, answered := true)];
    }

    // ---- Upstream servers ----

    /** _findUpstreamID(): a scan, then an append */
    method FindUpstreamID(ip: string, port: nat) returns (u: nat)
      modifies this`upstreams
      ensures u == UpstreamIndex(old(upstreams), ip, port)
      ensures Snap() == FindUpstream(old(Snap()), ip, port)
    {
      u := 0;
      while u < |upstreams|
        invariant 0 <= u <= |upstreams| && upstreams == old(upstreams)
        invariant UpstreamIndex(upstreams, ip, port) == u + UpstreamIndex(upstreams[u..], ip, port)
      {
        if upstreams[u].ip == ip && upstreams[u].port == port {
          return;
        }
        assert upstreams[u..][1..] == upstreams[u + 1..];
        u := u + 1;
      }
      upstreams := upstreams + [Upstream(ip, port, 0)];
    }

    method BumpCount(u: int, d: int)
      modifies this`upstreams
      ensures upstreams == BumpUpstream(old(upstreams), u, d)
    {
      if 0 <= u < |upstreams| {
        upstreams := upstreams[u := upstreams[u].(count := upstreams[u].count + d)];
      }
    }

    /** update_upstream() */
    method UpdateUpstream(i: nat, server: Option<(string, nat)>)
      requires i < |queries|
      modifies this`upstreams, this`queries
      ensures Snap() == Store.UpdateUpstream(old(Snap()), i, server)
    {
      if queries[i].answered || server.None? {
        return;
      }
      var u := FindUpstreamID(server.value.0, server.value.1);
      var q := queries[i];
      if u != q.upstreamID {
        if q.counted {
          BumpCount(q.upstreamID, -1);
          BumpCount(u, 1);
        }
        queries := queries[i := q.(upstreamID := u)];
      }
    }

    /** query_blocked() */
    method QueryBlocked(i: nat, st: Status, cfg: Config)
      requires |slots| == OVERTIME_SLOTS && i < |queries|
      modifies this
      ensures Snap() == Store.QueryBlocked(old(Snap()), i, st, cfg)
    {
      hide Store.SetStatus, IsBlocked, BumpUpstream;
      var q := queries[i];
      if q.status == Forwarded && q.counted {
        BumpCount(q.upstreamID, -1);
        queries := queries[i := q.(counted := false)];
      } else if IsBlocked(q.status) {
        return;
      }
      SetStatus(i, st, cfg);
    }

    /** Lorentz_forwarded() */
    method Forward(i: nat, ip: string, port: nat, cfg: Config)
      requires |slots| == OVERTIME_SLOTS && i < |queries|
      modifies this
      ensures Snap() == ForwardTo(old(Snap()), i, ip, port, cfg)
    {
      hide Store.SetStatus, CountAt, UpstreamIndex;
      if queries[i].complete {
        return;
      }
      var u := FindUpstreamID(ip, port);
      ghost var s := Snap();
      CountAtFrame(s, i, u);
      CountUpstream(i, u);
      if queries[i].status == Cache {
        queries := queries[i := queries[i].(answered := false)];
      } else {
        queries := queries[i := queries[i].(complete := true)];
      }
      SetStatus(i, Forwarded, cfg);
    }

    // The query's count moves to server u
    method CountUpstream(i: nat, u: nat)
      requires i < |queries|
      modifies this`upstreams, this`queries
      ensures Snap() == CountAt(old(Snap()), i, u)
    {
      var q := queries[i];
      if q.counted {
        BumpCount(q.upstreamID, -1);
      }
      BumpCount(u, 1);
      queries := queries[i := q.(upstreamID := u, counted := u < |upstreams|)];
    }

    // ---- Interned records ----

    /** _findDomainID() */
    method FindDomainID(name: string, count: bool) returns (d: nat)
      requires Interning.Valid(domains, HashStr)
      modifies this`domains
      ensures d == DomainId(old(Snap()), name) && d in KnowDomain(old(Snap()), name).domains.live
      ensures Snap() == if count then CountDomain(KnowDomain(old(Snap()), name), d) else KnowDomain(old(Snap()), name)
    {
      hide Indexed, Allocatable, Inserted, HashStr;
      var found := LookupFindId(domains, name, HashStr(name), HashStr);
      if found.Some? {
        d := found.value;
        if count {
          var data := domains.live[d].data;
          domains := Updated(domains, d, data.(count := data.count + 1));
        }
        return;
      }
      d := NextId(domains);
      CreatedTwice(domains, name, Domain(0, 0, 0.0), Domain(1, 0, 0.0), HashStr(name));
      domains := Created(domains, name, Domain(One(count), 0, 0.0), HashStr(name));
    }

    /** _findClientID() */
    method FindClientID(ip: string) returns (c: nat)
      requires Interning.Valid(clients, HashStr)
      modifies this`clients
      ensures c == ClientId(old(Snap()), ip) && c in KnowClient(old(Snap()), ip).clients.live
      ensures Snap() == CountClient(KnowClient(old(Snap()), ip), c, 1)
    {
      hide Indexed, Allocatable, Inserted, HashStr;
      var found := LookupFindId(clients, ip, HashStr(ip), HashStr);
      if found.Some? {
        c := found.value;
        var data := clients.live[c].data;
        clients := Updated(clients, c, data.(count := data.count + 1));
        return;
      }
      c := NextId(clients);
      CreatedTwice(clients, ip, Client(0, Zeros()), Client(1, Zeros()), HashStr(ip));
      clients := Created(clients, ip, Client(1, Zeros()), HashStr(ip));
    }

    /** _findCacheID() with permission to create */
    method FindCacheID(key: CacheKey) returns (k: nat)
      requires Interning.Valid(caches, HashKey)
      modifies this`caches
      ensures k == CacheId(old(Snap()), key) && k in caches.live
      ensures Snap() == KnowCache(old(Snap()), key)
    {
      hide Indexed, Allocatable, Inserted, HashKey;
      var found := LookupFindId(caches, key, HashKey(key), HashKey);
      if found.Some? {
        return found.value;
      }
      k := NextId(caches);
      caches := Created(caches, key, CacheData(0, -1, NoVerdict), HashKey(key));
    }

    // A reference on a domain taken (d == 1) or given back (d == -1)
    method CountCname(x: int, d: int)
      modifies this`domains
      ensures Snap() == BumpCname(old(Snap()), x, d)
    {
      if 0 <= x && x in domains.live {
        var data := domains.live[x].data;
        domains := Updated(domains, x, data.(cnameRefs := data.cnameRefs + d));
      }
    }

    // ---- A new query ----

    // change_clientcount() of the total
    method CountClientBy(c: nat, n: int)
      requires c in clients.live
      modifies this`clients
      ensures Snap() == CountClient(old(Snap()), c, n)
    {
      var client := clients.live[c].data;
      clients := Updated(clients, c, client.(count := client.count + n));
    }

    // The client and the domain are known and counted; everything else follows
    method Settle(q: Query)
      requires |slots| == OVERTIME_SLOTS
      requires q.domainID in domains.live && q.clientID in clients.live && q.cacheID in caches.live
      requires |clients.live[q.clientID].data.overTime| == OVERTIME_SLOTS
      modifies this
      ensures Snap() == Filed(old(Snap()), q)
    {
      hide GetId, Bump, Updated;
      var client, domain, cache := clients.live[q.clientID].data, domains.live[q.domainID].data, caches.live[q.cacheID].data;
      qtype := Bump(qtype, q.qtype, 1);
      status := Bump(status, q.status, 1);
      var id := GetId(slots, q.timestamp.Floor);
      slots := slots[id := slots[id].(total := slots[id].total + 1)];
      reply := Bump(reply, q.reply, 1);
      caches := Updated(caches, q.cacheID, cache.(refcount := cache.refcount + 1));
      queries := queries + [q];
      clients := Updated(clients, q.clientID, client.(overTime := client.overTime[id := client.overTime[id] + 1]));
      domains := Updated(domains, q.domainID, domain.(lastQuery := q.timestamp));
    }

    method Record(c: nat, d: nat, t: QType, id: int, now: real)
      requires |slots| == OVERTIME_SLOTS && c in clients.live && d in domains.live
      requires |clients.live[c].data.overTime| == OVERTIME_SLOTS && Interning.Valid(caches, HashKey)
      modifies this
      ensures Snap() == Recorded(old(Snap()), c, d, t, id, now)
    {
      hide Interning.Valid, Filed, KnowCache, CacheId, HashKey;
      var k := FindCacheID(CacheKey(d, c, t));
      Settle(FreshQuery(id, now, t, d, c, k));
    }

    /** The recording part of _Lorentz_new_query() */
    method NewQuery(ip: string, name: string, t: QType, id: int, now: real, analysed: bool)
      requires Valid()
      modifies this
      ensures Enrolled(Enrol(old(Snap()), ip, name, t))
      ensures Snap() == Store.NewQuery(old(Snap()), ip, name, t, id, now, analysed)
    {
      ghost var s := Snap();
      StoreTables(s);
      KnowClientKeeps(s, s.removed, ip);
      hide Inv, InvFrom, Interning.Valid, ClientId, DomainId, KnowClient, KnowDomain, Recorded, Enqueue, Enrolled, HashStr;
      FiledIsEnqueued(s, ip, name, t, id, now);
      var c := FindClientID(ip);
      if !analysed {
        UndoCount(KnowClient(s, ip), c);
        CountClientBy(c, -1);
        return;
      }
      var d := FindDomainID(name, true);
      Record(c, d, t, id, now);
    }

    // ---- Blocking ----

    // A DNS cache record that knows a verdict: no list is asked
    method ApplyVerdict(i: nat, cfg: Config) returns (blocked: bool)
      requires |slots| == OVERTIME_SLOTS && i < |queries| && queries[i].cacheID in caches.live
      modifies this
      ensures (Snap(), blocked) == Store.ApplyVerdict(old(Snap()), i, cfg)
    {
      hide GetId, Restatus, Memorise, Store.QueryBlocked, IsExternal;
      var q := queries[i];
      var c := caches.live[q.cacheID].data;
      var st := c.verdict.blocking;
      if IsListed(st) {
        if q.allowed {
          return false;
        }
        QueryBlockedLength(Snap(), i, st, cfg);
        QueryBlocked(i, st, cfg);
        if IsCname(st) {
          queries := queries[i := queries[i].(cname := c.cname)];
          CountCname(c.cname, 1);
        }
        return true;
      }
      if st == SpecialDomain || IsExternal(st) {
        QueryBlocked(i, st, cfg);
        return st != ExternalIp;
      }
      if c.verdict.allowed {
        queries := queries[i := q.(allowed := true)];
      }
      return false;
    }

    // The lists have been asked: record what they decided
    method ApplyDecision(i: nat, d: Decision, cfg: Config) returns (blocked: bool)
      requires |slots| == OVERTIME_SLOTS && i < |queries| && queries[i].cacheID in caches.live
      modifies this
      ensures (Snap(), blocked) == Store.ApplyDecision(old(Snap()), i, d, cfg)
    {
      hide GetId, Restatus, Memorise, Store.QueryBlocked;
      var k := queries[i].cacheID;
      var c := caches.live[k].data;
      queries := queries[i := queries[i].(allowed := d.allowed)];
      if d.block {
        if d.status == SpecialDomain {
          caches := Updated(caches, k, c.(verdict := c.verdict.(blocking := SpecialDomain)));
        }
        QueryBlocked(i, d.status, cfg);
        return true;
      }
      if d.dbOkay {
        caches := Updated(caches, k, c.(verdict := c.verdict.(allowed := d.allowed)));
      }
      return false;
    }

    /** Lorentz_check_blocking() */
    method CheckBlocking(i: nat, name: string, domainID: nat, lists: Lists, cfg: Config) returns (blocked: bool)
      requires |slots| == OVERTIME_SLOTS && i < |queries|
      requires queries[i].cacheID in caches.live && queries[i].clientID in clients.live
      modifies this
      ensures (Snap(), blocked) == Store.CheckBlocking(old(Snap()), i, name, domainID, lists, cfg)
    {
      hide Store.ApplyVerdict, Store.ApplyDecision, Decide, Current;
      if !cfg.enabled {
        return false;
      }
      var q := queries[i];
      var c := caches.live[q.cacheID].data;
      var v := Current(c.verdict, q.timestamp, cfg.ttl);
      caches := Updated(caches, q.cacheID, c.(verdict := v));
      if q.domainID == domainID && v.blocking != Unknown {
        blocked := ApplyVerdict(i, cfg);
      } else if q.allowed {
        blocked := false;
      } else {
        blocked := ApplyDecision(i, Decide(lists, cfg, name, clients.live[q.clientID].key, q.qtype, false), cfg);
      }
    }

    /** The filtering part of _Lorentz_new_query() */
    method Filter(i: nat, lists: Lists, cfg: Config) returns (blocked: bool)
      requires |slots| == OVERTIME_SLOTS && i < |queries| && queries[i].cacheID in caches.live
      requires queries[i].clientID in clients.live && queries[i].domainID in domains.live
      modifies this
      ensures (Snap(), blocked) == Store.Filter(old(Snap()), i, lists, cfg)
    {
      hide Store.CheckBlocking;
      var q := queries[i];
      blocked := CheckBlocking(i, domains.live[q.domainID].key, q.domainID, lists, cfg);
      if i < |queries| {
        queries := queries[i := queries[i].(released := !blocked)];
      }
    }

    // What LORENTZ_CNAME() records when the CNAME target x is blocked
    method BlockByCname(i: nat, x: int, r: Reply, cfg: Config)
      requires |slots| == OVERTIME_SLOTS && i < |queries| && queries[i].cacheID in caches.live
      modifies this
      ensures Snap() == BlockedByCname(old(Snap()), i, x, r, cfg)
    {
      hide GetId, Restatus, Memorise, Bump, Updated;
      SetReply(i, r);
      queries := queries[i := queries[i].(cname := x)];
      CountCname(x, 1);
      MoveCname(queries[i].cacheID, x);
      SetStatus(i, CnameOf(queries[i].status), cfg);
    }

    // The reference of a DNS cache record moves to domain x
    method MoveCname(c: nat, x: int)
      requires c in caches.live
      modifies this
      ensures Snap() == CacheHold(old(Snap()), c, x)
    {
      var data := caches.live[c].data;
      if data.cname != x {
        CountCname(data.cname, -1);
        caches := Updated(caches, c, data.(cname := x));
        CountCname(x, 1);
      }
    }

    // The child domain of a CNAME is known and fresh before it is checked
    method KnowChild(child: string, now: real) returns (x: nat)
      requires Interning.Valid(domains, HashStr)
      modifies this`domains
      ensures x == DomainId(old(Snap()), child)
      ensures Snap() == WithChild(old(Snap()), child, now)
    {
      hide Interning.Valid, KnowDomain, DomainId, HashStr;
      x := FindDomainID(child, false);
      domains := Updated(domains, x, domains.live[x].data.(lastQuery := now));
    }

    /** LORENTZ_CNAME() with deep inspection on */
    method CnameHop(i: nat, child: string, now: real, r: Reply, lists: Lists, cfg: Config) returns (blocked: bool)
      requires |slots| == OVERTIME_SLOTS && i < |queries| && Interning.Valid(domains, HashStr)
      requires queries[i].cacheID in caches.live && queries[i].clientID in clients.live
      modifies this
      ensures (Snap(), blocked) == Cname(old(Snap()), i, child, now, r, lists, cfg)
    {
      hide Interning.Valid, WithChild, DomainId, HashStr, Store.CheckBlocking, BlockedByCname;
      var x := KnowChild(child, now);
      blocked := CheckBlocking(i, child, x, lists, cfg);
      if blocked && i < |queries| && |slots| == OVERTIME_SLOTS && queries[i].cacheID in caches.live {
        BlockByCname(i, x, r, cfg);
      }
    }

    // ---- Answers ----

    method Complete(i: nat)
      requires i < |queries|
      modifies this`queries
      ensures Snap() == Completed(old(Snap()), i)
    {
      queries := queries[i := queries[i].(complete := true)];
    }

    // The branches of Lorentz_reply() for the first reply of a query
    method FirstReply(i: nat, a: Answer, cfg: Config)
      requires |slots| == OVERTIME_SLOTS && i < |queries|
      modifies this
      ensures Snap() == Store.FirstReply(old(Snap()), i, a, cfg)
    {
      hide GetId, Restatus, Memorise, Bump, IsBlocked;
      var q := queries[i];
      var qs := if a.stale then CacheStale else Cache;
      if Cached(a, q.qtype) {
        if !IsBlocked(q.status) {
          SetStatus(i, qs, cfg);
        }
        SetReply(i, a.reply);
        Complete(i);
      } else if a.config && a.exact && !q.complete {
        SetStatus(i, qs, cfg);
        SetReply(i, a.reply);
        Complete(i);
      } else if a.exact {
        if !(q.upstreamID < 0 || q.status == ExternalNull || q.status == ExternalNxra || q.status == ExternalEde15) {
          SetReply(i, a.reply);
        }
      } else if a.reverse || q.qtype == Ptr {
        SetReply(i, a.reply);
        Complete(i);
      } else if a.rcode {
        SetReply(i, a.reply);
        if !IsBlocked(q.status) {
          SetStatus(i, Cache, cfg);
        }
        Complete(i);
      }
    }

    /** Lorentz_reply() */
    method ReplyWith(i: nat, a: Answer, cfg: Config)
      requires |slots| == OVERTIME_SLOTS && i < |queries|
      modifies this
      ensures Snap() == ReplyTo(old(Snap()), i, a, cfg)
    {
      hide Store.FirstReply, UpstreamIndex, BumpUpstream;
      var q := queries[i];
      if !Cached(a, q.qtype) {
        UpdateUpstream(i, a.server);
      }
      queries := queries[i := queries[i].(answered := true)];
      if q.reply == NoReply {
        FirstReply(i, a, cfg);
      }
    }

    /** Lorentz_upstream_error() */
    method UpstreamError(i: nat, server: Option<(string, nat)>, r: Reply)
      requires i < |queries|
      modifies this
      ensures Snap() == FailWith(old(Snap()), i, server, r)
    {
      hide UpstreamIndex, BumpUpstream, Bump;
      UpdateUpstream(i, server);
      SetReply(i, r);
    }

    /** Lorentz_blocked_upstream_by_header() */
    method BlockedUpstream(i: nat, st: Status, cfg: Config)
      requires |slots| == OVERTIME_SLOTS && i < |queries|
      modifies this
      ensures Snap() == BlockedByHeader(old(Snap()), i, st, cfg)
    {
      QueryBlockedLength(Snap(), i, st, cfg);
      hide Store.QueryBlocked, Bump;
      QueryBlocked(i, st, cfg);
      SetReply(i, Nxdomain);
    }

    /** Lorentz_multiple_replies() */
    method MergeReply(src: nat, i: nat, cfg: Config)
      requires |slots| == OVERTIME_SLOTS && src < |queries| && i < |queries|
      modifies this
      ensures Snap() == Duplicate(old(Snap()), src, i, cfg)
    {
      hide GetId, Restatus, Memorise, Bump, Updated;
      var source := queries[src];
      var q := queries[i];
      reply := Bump(reply, q.reply, -1);
      reply := Bump(reply, source.reply, 1);
      queries := queries[i := q.(reply := source.reply, complete := true)];
      queries := queries[i := queries[i].(cname := source.cname)];
      CountCname(source.cname, 1);
      if source.status != Forwarded {
        SetStatus(i, source.status, cfg);
      }
    }

    /** Lorentz_reset_per_client_domain_data(): the loop over the DNS cache records */
    method ResetVerdicts()
      requires forall c :: c in caches.live ==> c < caches.used
      modifies this`caches, this`queries
      ensures Snap() == Reload(old(Snap()))
    {
      ghost var was := caches;
      for c := 0 to caches.used
        invariant queries == old(queries) && caches == was.(live := caches.live) && caches.live.Keys == was.live.Keys
        invariant forall k :: k in was.live ==> caches.live[k] == if k < c then Unverdict(was.live[k]) else was.live[k]
      {
        if c in caches.live {
          caches := Updated(caches, c, Unverdict(caches.live[c]).data);
        }
      }
      assert caches.live == map c | c in was.live :: Unverdict(was.live[c]);
      queries := Unreleased(queries);
    }

    // ---- The collector, first round ----

    // The upstream count query i holds is taken back
    method TakeUpstream(i: nat)
      requires i < |queries|
      modifies this`upstreams, this`queries
      ensures var q := old(queries)[i];
              && upstreams == (if q.counted && q.upstreamID > -1 then BumpUpstream(old(upstreams), q.upstreamID, -1) else old(upstreams))
              && queries == old(queries)[i := q.(counted := if q.upstreamID > -1 then false else q.counted)]
    {
      var q := queries[i];
      if q.counted && q.upstreamID > -1 {
        BumpCount(q.upstreamID, -1);
        queries := queries[i := q.(counted := false)];
      }
    }

    // The counts by reply, type and slot are taken back
    method TakeTotals(q: Query)
      requires |slots| == OVERTIME_SLOTS
      modifies this`reply, this`qtype, this`status, this`slots
      ensures reply == Bump(old(reply), q.reply, -1) && qtype == Bump(old(qtype), q.qtype, -1)
      ensures status == Bump(old(status), Unknown, -1)
      ensures var id := GetId(old(slots), q.timestamp.Floor);
              slots == old(slots)[id := old(slots)[id].(total := old(slots)[id].total - 1)]
    {
      hide GetId, Bump;
      var id := GetId(slots, q.timestamp.Floor);
      slots := slots[id := slots[id].(total := slots[id].total - 1)];
      reply := Bump(reply, q.reply, -1);
      qtype := Bump(qtype, q.qtype, -1);
      status := Bump(status, Unknown, -1);
    }

    // The counts of the client, the domain and the DNS cache record are taken back
    method TakeRecords(q: Query)
      requires |slots| == OVERTIME_SLOTS
      requires q.domainID in domains.live && q.clientID in clients.live && q.cacheID in caches.live
      requires |clients.live[q.clientID].data.overTime| == OVERTIME_SLOTS
      modifies this`clients, this`domains, this`caches
      ensures var client := old(clients).live[q.clientID].data;
              var id := GetId(old(slots), q.timestamp.Floor);
              clients == Updated(old(clients), q.clientID, Client(client.count - 1, client.overTime[id := client.overTime[id] - 1]))
      ensures var domain := old(domains).live[q.domainID].data;
              domains == Updated(old(domains), q.domainID, domain.(count := domain.count - 1))
      ensures var cache := old(caches).live[q.cacheID].data;
              caches == Updated(old(caches), q.cacheID, cache.(refcount := cache.refcount - 1))
    {
      hide GetId, Updated;
      var client, domain, cache := clients.live[q.clientID].data, domains.live[q.domainID].data, caches.live[q.cacheID].data;
      var id := GetId(slots, q.timestamp.Floor);
      clients := Updated(clients, q.clientID, Client(client.count - 1, client.overTime[id := client.overTime[id] - 1]));
      domains := Updated(domains, q.domainID, domain.(count := domain.count - 1));
      caches := Updated(caches, q.cacheID, cache.(refcount := cache.refcount - 1));
    }

    // Query i gives back every count but its CNAME reference and its status
    method TakeBack(i: nat)
      requires Shaped(Snap()) && i < |queries| && QueryOk(Snap(), queries[i])
      modifies this
      ensures Snap() == Taken(old(Snap()), i)
    {
      hide GetId, Bump, BumpUpstream, Updated, Shaped, QueryOk;
      TakenReads(Snap(), i);
      var q := queries[i];
      TakeRecords(q);
      TakeUpstream(i);
      TakeTotals(q);
    }

    method RetractOne(i: nat, cfg: Config)
      requires Shaped(Snap()) && i < |queries| && QueryOk(Snap(), queries[i])
      modifies this
      ensures Snap() == Retract(old(Snap()), i, cfg)
    {
      hide Shaped, QueryOk;
      var x := queries[i].cname;
      ReleasedLength(Snap(), i);
      hide Taken, Store.SetStatus;
      TakeBack(i);
      CountCname(x, -1);
      SetStatus(i, Unknown, cfg);
    }

    /** The locked section of runGC() before the database is pruned */
    method CollectBegin(mintime: int, cfg: Config)
      requires Valid() && gc.None?
      modifies this
      ensures Snap() == GcBegin(old(Snap()), mintime, cfg)
    {
      ghost var s := Snap();
      hide InvFrom, Retract, QueryOk, Shaped;
      var i := 0;
      while i < |queries| && queries[i].timestamp <= mintime as real
        invariant 0 <= i <= |queries| && InvFrom(Snap(), i)
        invariant RetractFrom(Snap(), i, mintime, cfg) == RetractFrom(s, 0, mintime, cfg)
        decreases |queries| - i
      {
        InvQuery(Snap(), i, i);
        RetractKeeps(Snap(), i, cfg);
        RetractOne(i, cfg);
        i := i + 1;
      }
      removed, gc := i, Some(mintime);
    }

    // ---- The collector, second round ----

    method RecycleClients()
      requires Indexed(clients, HashStr)
      modifies this`clients
      ensures Snap() == WithoutClients(old(Snap()))
    {
      hide Indexed, Recycled;
      ghost var s := Snap();
      var keep := (c: Client) => c.count > 0;
      clients := RecycleTable(clients, keep, HashStr);
      assert DeadClients(s) == DeadIds(s.clients, keep);
    }

    method RecycleDomains(now: real)
      requires Indexed(domains, HashStr)
      modifies this`domains
      ensures Snap() == WithoutDomains(old(Snap()), now)
    {
      hide Indexed, Recycled;
      ghost var s := Snap();
      var keep := (d: Domain) => d.count > 0 || d.cnameRefs > 0 || d.lastQuery > now - 86400.0;
      domains := RecycleTable(domains, keep, HashStr);
      assert DeadDomains(s, now) == DeadIds(s.domains, keep);
    }

    // As RecycleTable, and each dropped record gives back the CNAME reference it holds
    method RecycleCaches()
      requires Indexed(caches, HashKey)
      modifies this`caches, this`domains
      ensures Snap() == WithoutCaches(old(Snap()))
    {
      ghost var s := Snap();
      var lookup := caches.lookup;
      ghost var gone: set<nat> := {};
      GiveBackNone(s);
      hide Indexed, Recycled, GiveBack, BumpCname;
      for i := 0 to |lookup|
        invariant caches == s.caches && lookup == s.caches.lookup
        invariant Snap() == GiveBack(s, gone)
        invariant gone <= DeadCaches(s)
        invariant forall j :: 0 <= j < i && lookup[j].id in DeadCaches(s) ==> lookup[j].id in gone
        invariant forall j :: i <= j < |lookup| ==> lookup[j].id !in gone
      {
        IndexedEntry(s.caches, HashKey, i);
        var c := caches.live[lookup[i].id].data;
        if c.refcount <= 0 {
          GiveBackOne(s, gone, lookup[i].id);
          CountCname(c.cname, -1);
          gone := gone + {lookup[i].id};
        }
      }
      forall id | id in DeadCaches(s)
        ensures id in gone
      {
        IndexedAll(s.caches, HashKey, id);
      }
      assert gone == DeadCaches(s);
      var keep := (c: CacheData) => c.refcount > 0;
      caches := RecycleTable(caches, keep, HashKey);
      assert DeadCaches(s) == DeadIds(s.caches, keep);
    }

    /** recycle(): clients, then domains, then DNS cache records */
    method Recycle(now: real)
      requires Indexed(clients, HashStr) && Indexed(domains, HashStr) && Indexed(caches, HashKey)
      modifies this
      ensures Snap() == RecycleAll(old(Snap()), now)
    {
      hide WithoutClients, WithoutDomains, WithoutCaches, Indexed;
      RecycleClients();
      RecycleDomains(now);
      RecycleCaches();
    }

    // ---- The slot window ----

    /** initSlot(): the slot and every client's count in it start at zero */
    method InitSlot(index: nat, timestamp: int)
      requires index < |slots| && Sized(clients) && index < OVERTIME_SLOTS
      modifies this`slots, this`clients
      ensures slots == old(slots)[index := Slot(timestamp, 0, 0, 0, 0)]
      ensures clients == ZeroedAt(old(clients), index)
    {
      slots := slots[index := Slot(timestamp, 0, 0, 0, 0)];
      ghost var was := clients;
      for c := 0 to clients.used
        invariant slots == old(slots)[index := Slot(timestamp, 0, 0, 0, 0)]
        invariant clients == was.(live := clients.live) && clients.live.Keys == was.live.Keys
        invariant forall k :: k in was.live ==> clients.live[k] == if k < c then Zeroed(was.live[k], index) else was.live[k]
      {
        if c in clients.live {
          var data := clients.live[c].data;
          clients := Updated(clients, c, data.(overTime := data.overTime[index := 0]));
        }
      }
      assert clients.live == ZeroedAt(was, index).live;
    }

    // memmove() of every client's counts; what was behind the moved part stays
    method SlideClients(m: nat)
      requires Sized(clients) && Moves(m)
      modifies this`clients
      ensures clients == SlidBy(old(clients), m)
    {
      ghost var was := clients;
      for c := 0 to clients.used
        invariant clients == was.(live := clients.live) && clients.live.Keys == was.live.Keys
        invariant forall k :: k in was.live ==> clients.live[k] == if k < c then Slid(was.live[k], m) else was.live[k]
      {
        if c in clients.live {
          var data := clients.live[c].data;
          clients := Updated(clients, c, data.(overTime := data.overTime[m..] + data.overTime[OVERTIME_SLOTS - m..]));
        }
      }
      assert clients.live == SlidBy(was, m).live;
    }

    /** moveOverTimeMemory() */
    method MoveOverTimeMemory(mintime: int)
      requires |slots| == OVERTIME_SLOTS && Sized(clients)
      modifies this`slots, this`clients
      ensures Snap() == MoveOverTime(old(Snap()), mintime)
    {
      var m := ShiftOf(slots, mintime);
      if !Moves(m) {
        return;
      }
      ghost var was, counts := slots, clients;
      slots := slots[m..] + slots[OVERTIME_SLOTS - m..];
      SlideClients(m);
      hide ShiftOf;
      OpenSlots(m, was, counts);
      MovedClientsAll(counts, clients, m);
    }

    // The slots that came free get the times behind the last one, and start at zero
    method OpenSlots(m: nat, ghost was: seq<Slot>, ghost counts: Table<string, Client>)
      requires |slots| == |was| == OVERTIME_SLOTS && Sized(counts) && Moves(m)
      requires slots[..OVERTIME_SLOTS - m] == MovedSlots(was, m)[..OVERTIME_SLOTS - m]
      requires MovedClients(counts, clients, m, OVERTIME_SLOTS - m)
      modifies this`slots, this`clients
      ensures slots == MovedSlots(was, m) && MovedClients(counts, clients, m, OVERTIME_SLOTS)
    {
      for index := OVERTIME_SLOTS - m to OVERTIME_SLOTS
        invariant |slots| == OVERTIME_SLOTS && slots[..index] == MovedSlots(was, m)[..index]
        invariant MovedClients(counts, clients, m, index)
      {
        ghost var mid := clients;
        MovedSlotsStep(was, slots, m, index);
        InitSlot(index, slots[index - 1].timestamp + OVERTIME_INTERVAL);
        MovedClientsStep(counts, mid, m, index);
      }
      assert slots == MovedSlots(was, m) by {
        assert slots[..OVERTIME_SLOTS] == slots && MovedSlots(was, m)[..OVERTIME_SLOTS] == MovedSlots(was, m);
      }
    }

    /** The locked section of runGC() after the database is pruned */
    method CollectEnd(now: real)
      requires Valid() && gc.Some?
      modifies this
      ensures removed == 0 && gc.None?
      ensures old(removed) <= |old(queries)| && Snap() == GcEnd(old(Snap()), now)
    {
      ghost var s := Snap();
      InvBounds(s);
      AdvancedKeeps(s);
      RecycleKeeps(Advanced(s), now);
      RecycleFrame(Advanced(s), now);
      AdvancedReady(Advanced(s), RecycleAll(Advanced(s), now));
      hide Inv, InvFrom, Recycled, RecycleAll, MoveOverTime, AllSince, Shaped;
      var mintime := gc.value;
      Advance();
      Recycle(now);
      MoveOverTimeMemory(mintime);
    }

    // The memmove() of the queries and the counters that go with it
    method Advance()
      requires removed <= |queries|
      modifies this`queries, this`removed, this`gc
      ensures removed == 0 && gc.None? && Snap() == Advanced(old(Snap()))
    {
      if removed > 0 {
        queries := queries[removed..];
      }
      removed, gc := 0, None;
    }

    // ---- All sections together ----

    // Lorentz_forwarding_retried()
    method Retry(i: nat, ip: string, port: nat, dnssec: bool, cfg: Config)
      requires |slots| == OVERTIME_SLOTS && i < |queries|
      modifies this
      ensures Snap() == Retrying(old(Snap()), i, ip, port, dnssec, cfg)
    {
      hide Store.SetStatus, UpstreamIndex;
      var u := FindUpstreamID(ip, port);
      SetStatus(i, if dnssec then RetriedDnssec else Retried, cfg);
    }

    // Lorentz_dnssec() with a result that is neither secure nor insecure
    method DropAnswer(i: nat)
      requires i < |queries|
      modifies this
      ensures Snap() == DropReply(old(Snap()), i)
    {
      if queries[i].reply == NoReply {
        SetReply(i, Dropped);
      }
    }

    method HandleArrival(e: Event, cfg: Config)
      requires Valid() && Enabled(Snap(), e) && (e.Arrive? || e.Check?)
      modifies this
      ensures Snap() == Step(old(Snap()), e, cfg)
    {
      hide Inv, InvFrom, Interning.Valid, Fetchable, ForwardTo, ReplyTo, FailWith, BlockedByHeader, Store.QueryBlocked, Retrying;
      hide Enrol, Enrolled, Store.NewQuery, Store.Filter, Cname, Duplicate, Reload, GcBegin, GcEnd, Store.SetStatus, DropReply;
      match e {
        case Arrive(ip, name, t, id, now, analysed) =>
          NewQuery(ip, name, t, id, now, analysed);
        case Check(i, lists) =>
          LiveReads(Snap(), i);
          var blocked := Filter(i, lists, cfg);
      }
    }

    method HandleHop(e: Event, cfg: Config)
      requires Valid() && Enabled(Snap(), e) && (e.Hop? || e.Merge?)
      modifies this
      ensures Snap() == Step(old(Snap()), e, cfg)
    {
      ghost var s := Snap();
      StoreTables(s);
      hide Inv, InvFrom, Interning.Valid, Fetchable, ForwardTo, ReplyTo, FailWith, BlockedByHeader, Store.QueryBlocked, Retrying;
      hide Enrol, Enrolled, Store.NewQuery, Store.Filter, Cname, Duplicate, Reload, GcBegin, GcEnd, Store.SetStatus, DropReply;
      match e {
        case Hop(i, child, now, r, lists) =>
          LiveReads(s, i);
          var blocked := CnameHop(i, child, now, r, lists, cfg);
        case Merge(src, i) =>
          LiveReads(s, src);
          LiveReads(s, i);
          MergeReply(src, i, cfg);
      }
    }

    method HandleAnswer(e: Event, cfg: Config)
      requires Valid() && Enabled(Snap(), e) && (e.Forward? || e.Respond?)
      modifies this
      ensures Snap() == Step(old(Snap()), e, cfg)
    {
      hide Inv, InvFrom, Interning.Valid, Fetchable, ForwardTo, ReplyTo, FailWith, BlockedByHeader, Store.QueryBlocked, Retrying;
      hide Enrol, Enrolled, Store.NewQuery, Store.Filter, Cname, Duplicate, Reload, GcBegin, GcEnd, Store.SetStatus, DropReply;
      LiveReads(Snap(), e.i);
      match e {
        case Forward(i, ip, port) => Forward(i, ip, port, cfg);
        case Respond(i, a) => ReplyWith(i, a, cfg);
      }
    }

    method HandleFailure(e: Event, cfg: Config)
      requires Valid() && Enabled(Snap(), e) && (e.Fail? || e.Drop?)
      modifies this
      ensures Snap() == Step(old(Snap()), e, cfg)
    {
      hide Inv, InvFrom, Interning.Valid, Fetchable, ForwardTo, ReplyTo, FailWith, BlockedByHeader, Store.QueryBlocked, Retrying;
      hide Enrol, Enrolled, Store.NewQuery, Store.Filter, Cname, Duplicate, Reload, GcBegin, GcEnd, Store.SetStatus, DropReply;
      LiveReads(Snap(), e.i);
      match e {
        case Fail(i, server, r) => UpstreamError(i, server, r);
        case Drop(i) => DropAnswer(i);
      }
    }

    method HandleBlock(e: Event, cfg: Config)
      requires Valid() && Enabled(Snap(), e) && (e.BlockByHeader? || e.BlockByAddress?)
      modifies this
      ensures Snap() == Step(old(Snap()), e, cfg)
    {
      hide Inv, InvFrom, Interning.Valid, Fetchable, ForwardTo, ReplyTo, FailWith, BlockedByHeader, Store.QueryBlocked, Retrying;
      hide Enrol, Enrolled, Store.NewQuery, Store.Filter, Cname, Duplicate, Reload, GcBegin, GcEnd, Store.SetStatus, DropReply;
      LiveReads(Snap(), e.i);
      match e {
        case BlockByHeader(i, st) => BlockedUpstream(i, st, cfg);
        case BlockByAddress(i, st) => QueryBlocked(i, st, cfg);
      }
    }

    method HandleRetry(e: Event, cfg: Config)
      requires Valid() && Enabled(Snap(), e) && (e.Retry? || e.Wait?)
      modifies this
      ensures Snap() == Step(old(Snap()), e, cfg)
    {
      hide Inv, InvFrom, Interning.Valid, Fetchable, ForwardTo, ReplyTo, FailWith, BlockedByHeader, Store.QueryBlocked, Retrying;
      hide Enrol, Enrolled, Store.NewQuery, Store.Filter, Cname, Duplicate, Reload, GcBegin, GcEnd, Store.SetStatus, DropReply;
      LiveReads(Snap(), e.i);
      match e {
        case Retry(i, ip, port, dnssec) => Retry(i, ip, port, dnssec, cfg);
        case Wait(i) => SetStatus(i, InProgress, cfg);
      }
    }

    method HandleCollector(e: Event, cfg: Config)
      requires Valid() && Enabled(Snap(), e) && (e.ReloadLists? || e.RetryUnknown? || e.Collect? || e.Finish?)
      modifies this
      ensures Snap() == Step(old(Snap()), e, cfg)
    {
      hide Inv, InvFrom, Interning.Valid, Fetchable, ForwardTo, ReplyTo, FailWith, BlockedByHeader, Store.QueryBlocked, Retrying;
      hide Enrol, Enrolled, Store.NewQuery, Store.Filter, Cname, Duplicate, Reload, GcBegin, GcEnd, Store.SetStatus, DropReply;
      ghost var s := Snap();
      StoreTables(s);
      CacheIdsUsed(s.caches);
      match e {
        case ReloadLists => ResetVerdicts();
        case RetryUnknown(ip, port) => var u := FindUpstreamID(ip, port);
        case Collect(mintime) => CollectBegin(mintime, cfg);
        case Finish(now) => CollectEnd(now);
      }
    }

    /** runGC() on a flush: both rounds under one lock */
    method Flush(time: int, cfg: Config)
      requires Valid() && gc.None?
      modifies this
      ensures Snap() == Step(old(Snap()), Event.Flush(time), cfg)
    {
      hide Inv, InvFrom, Fetchable, ForwardTo, ReplyTo, FailWith, BlockedByHeader, Store.QueryBlocked, Retrying;
      hide Enrol, Enrolled, Store.NewQuery, Store.Filter, Cname, Duplicate, Reload, GcBegin, GcEnd, Store.SetStatus, DropReply;
      GcBeginKeeps(Snap(), time, cfg);
      GcBeginSome(Snap(), time, cfg);
      CollectBegin(time, cfg);
      CollectEnd(time as real);
    }

    /** Every locked section, run in place, leaves the state Step() describes, and that
        state satisfies the invariant again. */
    method Handle(e: Event, cfg: Config)
      requires Valid() && Enabled(Snap(), e)
      modifies this
      ensures Valid() && Snap() == Step(old(Snap()), e, cfg)
    {
      if e.Flush? {
        hide Inv, Step;
        StepKeeps(Snap(), e, cfg);
        Flush(e.time, cfg);
        return;
      }
      hide Inv, Step, Enabled;
      StepKeeps(Snap(), e, cfg);
      if e.Arrive? || e.Check? {
        HandleArrival(e, cfg);
      } else if e.Hop? || e.Merge? {
        HandleHop(e, cfg);
      } else if e.Forward? || e.Respond? {
        HandleAnswer(e, cfg);
      } else if e.Fail? || e.Drop? {
        HandleFailure(e, cfg);
      } else if e.BlockByHeader? || e.BlockByAddress? {
        HandleBlock(e, cfg);
      } else if e.Retry? || e.Wait? {
        HandleRetry(e, cfg);
      } else {
        HandleCollector(e, cfg);
      }
    }
  }

  lemma GcBeginSome(s: State, mintime: int, cfg: Config)
    ensures GcBegin(s, mintime, cfg).gc == Some(mintime)
  {
  }

  lemma CacheIdsUsed<K, V>(t: Table<K, V>)
    requires Allocatable(t)
    ensures forall c :: c in t.live ==> c < t.used
  {
  }

  lemma LiveReads(s: State, i: nat)
    requires Inv(s) && IsLive(s, i)
    ensures Fetchable(s, i) && i < |s.queries| && |s.slots| == OVERTIME_SLOTS
    ensures s.queries[i].cacheID in s.caches.live && s.queries[i].clientID in s.clients.live && s.queries[i].domainID in s.domains.live
  {
    LiveFetchable(s, i);
    hide InvFrom, Aligned;
  }

  lemma InvBounds(s: State)
    requires Inv(s)
    ensures s.removed <= |s.queries|
  {
  }

  lemma RecycleFrame(s: State, now: real)
    ensures RecycleAll(s, now).gc == s.gc && RecycleAll(s, now).removed == s.removed
  {
    hide Recycled, DeadClients, DeadDomains, DeadCaches;
  }

  // What the second round relies on, before and after recycling
  lemma AdvancedReady(s: State, r: State)
    requires InvFrom(s, 0) && InvFrom(r, 0)
    ensures Indexed(s.clients, HashStr) && Indexed(s.domains, HashStr) && Indexed(s.caches, HashKey)
    ensures Shaped(r) && |r.slots| == OVERTIME_SLOTS && Sized(r.clients)
  {
    hide Conserved, CnameCovered, QueriesOk, CachesOk, Ordered, Aligned;
  }

  // Every ID in use is below the counter and every client has a count for each slot
  ghost predicate Sized(t: Table<string, Client>) {
    forall c :: c in t.live ==> c < t.used && |t.live[c].data.overTime| == OVERTIME_SLOTS
  }

  function Zeroed(r: Rec<string, Client>, index: nat): Rec<string, Client>
    requires index < |r.data.overTime|
  {
    r.(data := r.data.(overTime := r.data.overTime[index := 0]))
  }

  ghost function ZeroedAt(t: Table<string, Client>, index: nat): (r: Table<string, Client>)
    requires Sized(t) && index < OVERTIME_SLOTS
    ensures Sized(r)
  {
    t.(live := map c | c in t.live :: Zeroed(t.live[c], index))
  }

  function Slid(r: Rec<string, Client>, m: nat): Rec<string, Client>
    requires |r.data.overTime| == OVERTIME_SLOTS && Moves(m)
  {
    r.(data := r.data.(overTime := r.data.overTime[m..] + r.data.overTime[OVERTIME_SLOTS - m..]))
  }

  ghost function SlidBy(t: Table<string, Client>, m: nat): (r: Table<string, Client>)
    requires Sized(t) && Moves(m)
    ensures Sized(r)
  {
    t.(live := map c | c in t.live :: Slid(t.live[c], m))
  }

  // The counts before slot `index` are the moved ones
  ghost predicate MovedClients(was: Table<string, Client>, t: Table<string, Client>, m: nat, index: nat)
    requires Sized(was) && Moves(m) && index <= OVERTIME_SLOTS
  {
    && Sized(t) && t == was.(live := t.live) && t.live.Keys == was.live.Keys
    && forall c :: c in was.live ==>
         && t.live[c] == was.live[c].(data := was.live[c].data.(overTime := t.live[c].data.overTime))
         && t.live[c].data.overTime[..index] == MovedCounts(was.live[c].data.overTime, m)[..index]
  }

  lemma MovedSlotsStep(was: seq<Slot>, t: seq<Slot>, m: nat, index: nat)
    requires |was| == |t| == OVERTIME_SLOTS && Moves(m) && OVERTIME_SLOTS - m <= index < OVERTIME_SLOTS
    requires t[..index] == MovedSlots(was, m)[..index]
    ensures t[index := Slot(t[index - 1].timestamp + OVERTIME_INTERVAL, 0, 0, 0, 0)][..index + 1] == MovedSlots(was, m)[..index + 1]
  {
    var r := MovedSlots(was, m);
    assert t[index - 1] == t[..index][index - 1] == r[index - 1];
    assert r[index] == Slot(r[index - 1].timestamp + OVERTIME_INTERVAL, 0, 0, 0, 0);
    var u := t[index := r[index]];
    assert u[..index + 1] == u[..index] + [r[index]] && r[..index + 1] == r[..index] + [r[index]];
    assert u[..index] == t[..index];
  }

  lemma MovedClientsStep(was: Table<string, Client>, t: Table<string, Client>, m: nat, index: nat)
    requires Sized(was) && Moves(m) && OVERTIME_SLOTS - m <= index < OVERTIME_SLOTS && MovedClients(was, t, m, index)
    ensures MovedClients(was, ZeroedAt(t, index), m, index + 1)
  {
    var r := ZeroedAt(t, index);
    forall c | c in was.live
      ensures r.live[c].data.overTime[..index + 1] == MovedCounts(was.live[c].data.overTime, m)[..index + 1]
    {
      var a, b := r.live[c].data.overTime, MovedCounts(was.live[c].data.overTime, m);
      assert a[..index] == t.live[c].data.overTime[..index];
      assert a[..index + 1] == a[..index] + [0] && b[..index + 1] == b[..index] + [0];
    }
  }

  lemma MovedClientsAll(was: Table<string, Client>, t: Table<string, Client>, m: nat)
    requires Sized(was) && Moves(m) && MovedClients(was, t, m, OVERTIME_SLOTS)
    ensures t == was.(live := map c | c in was.live ::
                       var r := was.live[c];
                       r.(data := r.data.(overTime := MovedCounts(r.data.overTime, m))))
  {
    forall c | c in was.live
      ensures t.live[c].data.overTime == MovedCounts(was.live[c].data.overTime, m)
    {
      var a, b := t.live[c].data.overTime, MovedCounts(was.live[c].data.overTime, m);
      assert a[..OVERTIME_SLOTS] == a && b[..OVERTIME_SLOTS] == b;
    }
  }

  lemma GiveBackNone(s: State)
    ensures GiveBack(s, {}) == s
  {
    assert forall d: nat :: HoldersIn(s.caches.live, {}, d) == {};
    assert GiveBack(s, {}).domains.live == s.domains.live;
  }

  // Giving back one more record is one more decrement
  lemma CountAtFrame(s: State, i: nat, u: nat)
    requires i < |s.queries|
    ensures var r := CountAt(s, i, u); |r.queries| == |s.queries| && r.slots == s.slots && r.queries[i].status == s.queries[i].status
  {
  }

  lemma OneMoreHolder(s: State, gone: set<nat>, c: nat, d: nat)
    requires c in s.caches.live && c !in gone
    ensures |HoldersIn(s.caches.live, gone + {c}, d)| ==
            |HoldersIn(s.caches.live, gone, d)| + if d == s.caches.live[c].data.cname then 1 else 0
  {
    if d == s.caches.live[c].data.cname {
      assert HoldersIn(s.caches.live, gone + {c}, d) == HoldersIn(s.caches.live, gone, d) + {c};
    } else {
      assert HoldersIn(s.caches.live, gone + {c}, d) == HoldersIn(s.caches.live, gone, d);
    }
  }

  lemma GiveBackOne(s: State, gone: set<nat>, c: nat)
    requires c in s.caches.live && c !in gone
    ensures GiveBack(s, gone + {c}) == BumpCname(GiveBack(s, gone), s.caches.live[c].data.cname, -1)
  {
    hide HoldersIn;
    var x := s.caches.live[c].data.cname;
    forall d: nat {
      OneMoreHolder(s, gone, c, d);
    }
    var a, b := GiveBack(s, gone + {c}), BumpCname(GiveBack(s, gone), x, -1);
    assert a.domains.live == b.domains.live;
  }

  lemma TakenReads(s: State, i: nat)
    requires Shaped(s) && i < |s.queries| && QueryOk(s, s.queries[i])
    ensures |s.slots| == OVERTIME_SLOTS && s.queries[i].clientID in s.clients.live && s.queries[i].domainID in s.domains.live
    ensures s.queries[i].cacheID in s.caches.live
    ensures |s.clients.live[s.queries[i].clientID].data.overTime| == OVERTIME_SLOTS
  {
  }

  lemma ReleasedLength(s: State, i: nat)
    requires Shaped(s) && i < |s.queries| && QueryOk(s, s.queries[i])
    ensures |Taken(s, i).queries| == |s.queries| == |Released(s, i).queries|
    ensures |Taken(s, i).slots| == |Released(s, i).slots| == OVERTIME_SLOTS
  {
  }

  function Unverdict(r: Rec<CacheKey, CacheData>): Rec<CacheKey, CacheData> {
    r.(data := r.data.(verdict := r.data.verdict.(blocking := Unknown, expires := 0)))
  }

  ghost function CountDomain(s: State, d: nat): State
    requires d in s.domains.live
  {
    WithDomain(s, d, s.domains.live[d].data.(count := s.domains.live[d].data.count + 1))
  }

  ghost function CountClient(s: State, c: nat, n: int): State
    requires c in s.clients.live
  {
    WithClient(s, c, s.clients.live[c].data.(count := s.clients.live[c].data.count + n))
  }

  // A query whose client and domain are already counted
  ghost function Filed(s: State, q: Query): State
    requires |s.slots| == OVERTIME_SLOTS
    requires q.domainID in s.domains.live && q.clientID in s.clients.live && q.cacheID in s.caches.live
    requires |s.clients.live[q.clientID].data.overTime| == OVERTIME_SLOTS
  {
    var id := GetId(s.slots, q.timestamp.Floor);
    var client := s.clients.live[q.clientID].data;
    var domain := s.domains.live[q.domainID].data;
    var cache := s.caches.live[q.cacheID].data;
    State(s.queries + [q], s.removed, s.gc,
          Updated(s.clients, q.clientID, client.(overTime := client.overTime[id := client.overTime[id] + 1])),
          Updated(s.domains, q.domainID, domain.(lastQuery := q.timestamp)),
          Updated(s.caches, q.cacheID, cache.(refcount := cache.refcount + 1)),
          s.upstreams,
          Bump(s.status, q.status, 1), Bump(s.reply, q.reply, 1), Bump(s.qtype, q.qtype, 1),
          s.slots[id := s.slots[id].(total := s.slots[id].total + 1)])
  }

  ghost function Recorded(s: State, c: nat, d: nat, t: QType, id: int, now: real): State
    requires |s.slots| == OVERTIME_SLOTS && c in s.clients.live && d in s.domains.live
    requires |s.clients.live[c].data.overTime| == OVERTIME_SLOTS
  {
    var k, s1 := CacheId(s, CacheKey(d, c, t)), KnowCache(s, CacheKey(d, c, t));
    if k in s1.caches.live then Filed(s1, FreshQuery(id, now, t, d, c, k)) else s1
  }

  lemma UpdatedTwice<K, V>(t: Table<K, V>, id: nat, a: V, b: V)
    requires id in t.live
    ensures Updated(Updated(t, id, a), id, b) == Updated(t, id, b)
  {
  }

  // Counting the client and the domain early is the same as counting them at the end
  lemma FiledCounts(s: State, q: Query)
    requires |s.slots| == OVERTIME_SLOTS
    requires q.domainID in s.domains.live && q.clientID in s.clients.live && q.cacheID in s.caches.live
    requires |s.clients.live[q.clientID].data.overTime| == OVERTIME_SLOTS
    ensures Filed(CountDomain(CountClient(s, q.clientID, 1), q.domainID), q) == Enqueue(s, q)
  {
    hide GetId, Bump;
    var id := GetId(s.slots, q.timestamp.Floor);
    var client := s.clients.live[q.clientID].data;
    var domain := s.domains.live[q.domainID].data;
    var more := client.(count := client.count + 1);
    UpdatedTwice(s.clients, q.clientID, more, more.(overTime := client.overTime[id := client.overTime[id] + 1]));
    UpdatedTwice(s.domains, q.domainID, domain.(count := domain.count + 1), Domain(domain.count + 1, domain.cnameRefs, q.timestamp));
  }

  lemma KnowDomainCommutes(s: State, c: nat, name: string)
    requires c in s.clients.live
    ensures DomainId(CountClient(s, c, 1), name) == DomainId(s, name)
    ensures KnowDomain(CountClient(s, c, 1), name) == CountClient(KnowDomain(s, name), c, 1)
  {
    hide FindId, Created, NextId, HashStr;
  }

  lemma KnowCacheCommutes(s: State, c: nat, d: nat, key: CacheKey)
    requires c in s.clients.live && d in s.domains.live
    ensures CacheId(CountDomain(CountClient(s, c, 1), d), key) == CacheId(s, key)
    ensures KnowCache(CountDomain(CountClient(s, c, 1), d), key) == CountDomain(CountClient(KnowCache(s, key), c, 1), d)
  {
    hide FindId, Created, NextId, HashKey;
  }

  // The order of the source, and the order of Enqueue: records first, counts last
  lemma FiledIsEnqueued(s: State, ip: string, name: string, t: QType, id: int, now: real)
    requires InvFrom(s, s.removed) && ClientId(s, ip) in KnowClient(s, ip).clients.live
    ensures var e := Enrol(s, ip, name, t);
            && Enrolled(e)
            && var s1 := CountClient(KnowClient(s, ip), ClientId(s, ip), 1);
            && DomainId(s1, name) == e.domainID && e.domainID in KnowDomain(s1, name).domains.live
            && var s2 := CountDomain(KnowDomain(s1, name), e.domainID);
            && e.clientID in s2.clients.live && |s2.clients.live[e.clientID].data.overTime| == OVERTIME_SLOTS
            && |s2.slots| == OVERTIME_SLOTS && e.domainID in s2.domains.live
            && Recorded(s2, e.clientID, e.domainID, t, id, now) ==
               Enqueue(e.state, FreshQuery(id, now, t, e.domainID, e.clientID, e.cacheID))
  {
    var e := Enrol(s, ip, name, t);
    var c, s1 := ClientId(s, ip), KnowClient(s, ip);
    var d, s2 := DomainId(s1, name), KnowDomain(s1, name);
    EnrolReady(s, s.removed, ip, name, t);
    KnowClientKeeps(s, s.removed, ip);
    KnowDomainKeeps(s1, s.removed, name);
    hide InvFrom;
    assert e.clientID == c && e.domainID == d;
    assert s2.clients == s1.clients && e.state.clients == s2.clients && e.state.domains == s2.domains;
    KnowDomainCommutes(s1, c, name);
    KnowCacheCommutes(s2, c, d, CacheKey(d, c, t));
    FiledCounts(e.state, FreshQuery(id, now, t, d, c, e.cacheID));
    hide KnowClient, KnowDomain, KnowCache, ClientId, DomainId, CacheId, Filed, Enqueue;
  }

  // Creating a record and then changing its data is creating it with that data
  lemma CreatedTwice<K, V>(t: Table<K, V>, key: K, a: V, b: V, hash: nat)
    ensures Updated(Created(t, key, a, hash), NextId(t), b) == Created(t, key, b, hash)
  {
  }

  lemma UndoCount(s: State, c: nat)
    requires c in s.clients.live
    ensures CountClient(CountClient(s, c, 1), c, -1) == s
  {
    var t := CountClient(CountClient(s, c, 1), c, -1);
    assert t.clients.live == s.clients.live;
  }

  lemma StoreTables(s: State)
    requires Inv(s)
    ensures InvFrom(s, s.removed) && Shaped(s)
    ensures Interning.Valid(s.clients, HashStr) && Interning.Valid(s.domains, HashStr) && Interning.Valid(s.caches, HashKey)
  {
  }

  lemma QueryBlockedLength(s: State, i: nat, st: Status, cfg: Config)
    requires |s.slots| == OVERTIME_SLOTS && i < |s.queries|
    ensures |Store.QueryBlocked(s, i, st, cfg).queries| == |s.queries|
  {
  }

  lemma UpdatedSelf<K, V>(t: Table<K, V>, id: nat)
    requires id in t.live
    ensures Updated(t, id, t.live[id].data) == t
  {
  }
}
