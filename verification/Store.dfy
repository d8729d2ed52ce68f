// The query store: its state and, hook by hook, the new state each locked section of
// src/dnsmasq_interface.c, src/datastructure.c and src/gc.c leaves behind.
module Store {
  import opened Records
  import opened Interning
  import opened OverTime
  import opened Blocking
  import opened Hashing

  datatype Domain = Domain(count: int, cnameRefs: int, lastQuery: real)

  datatype Client = Client(count: int, overTime: seq<int>)

  datatype CacheKey = CacheKey(domainID: nat, clientID: nat, qtype: QType)

  // `cname` is the domain this record holds a reference on, -1 if none
  datatype CacheData = CacheData(refcount: int, cname: int, verdict: Verdict)

  datatype Upstream = Upstream(ip: string, port: nat, count: int)

  /** The shared state. `queries` is the logical query window. The collector works in two
      locked rounds: between them `gc` holds its cut-off time and the first `removed`
      queries are retracted, that is, already taken out of every counter. */
  datatype State = State(
    queries: seq<Query>,
    removed: nat,
    gc: Option<int>,
    clients: Table<string, Client>,
    domains: Table<string, Domain>,
    caches: Table<CacheKey, CacheData>,
    upstreams: seq<Upstream>,
    status: map<Status, int>,
    reply: map<Reply, int>,
    qtype: map<QType, int>,
    slots: seq<Slot>)

  function HashKey(k: CacheKey): nat {
    HashIds(k.domainID, k.clientID, k.qtype)
  }

  function Zeros(): (r: seq<int>)
    ensures |r| == OVERTIME_SLOTS
  {
    seq(OVERTIME_SLOTS, i => 0)
  }

  function Initial(now: nat): State {
    State([], 0, None, Empty(), Empty(), Empty(), [], map[], map[], map[], OverTime.Initial(now))
  }

  ghost predicate Shaped(s: State) {
    && |s.slots| == OVERTIME_SLOTS
    && Aligned(s.slots)
    && Base(s.slots) >= 0
    && (forall c :: c in s.clients.live ==> |s.clients.live[c].data.overTime| == OVERTIME_SLOTS)
    && s.removed <= |s.queries|
  }

  // ---- Well-formed queries ----

  ghost predicate InWindow(s: State, t: real)
    requires Shaped(s)
  {
    0.0 <= t && Covers(s.slots, Interval(t))
  }

  ghost predicate QueryOk(s: State, q: Query)
    requires Shaped(s)
  {
    && InWindow(s, q.timestamp)
    && -1 <= q.upstreamID < |s.upstreams|
    && (q.counted ==> 0 <= q.upstreamID)
    && -1 <= q.cname
    && q.domainID in s.domains.live
    && q.clientID in s.clients.live
    && q.cacheID in s.caches.live
    && s.caches.live[q.cacheID].key == CacheKey(q.domainID, q.clientID, q.qtype)
  }

  // ---- Counters ----

  // Counters start out as zero memory
  function Get<K>(m: map<K, int>, k: K): int {
    if k in m then m[k] else 0
  }

  function Bump<K>(m: map<K, int>, k: K, d: int): map<K, int> {
    m[k := Get(m, k) + d]
  }

  function One(b: bool): int {
    if b then 1 else 0
  }

  /** The number the store keeps for a tally. A slot outside the window and a record that
      is not live count nothing. */
  ghost function Tallied(s: State, k: Tally): int
    requires Shaped(s)
  {
    match k
    case OfStatus(x) => Get(s.status, x)
    case OfReply(x) => Get(s.reply, x)
    case OfType(x) => Get(s.qtype, x)
    case OfDomain(d) => if d in s.domains.live then s.domains.live[d].data.count else 0
    case OfClient(c) => if c in s.clients.live then s.clients.live[c].data.count else 0
    case OfCache(c) => if c in s.caches.live then s.caches.live[c].data.refcount else 0
    case OfUpstream(u) => if 0 <= u < |s.upstreams| then s.upstreams[u].count else 0
    case OfSlot(n) => if Covers(s.slots, n) then s.slots[n - Base(s.slots)].total else 0
    case OfBlockedSlot(n) => if Covers(s.slots, n) then s.slots[n - Base(s.slots)].blocked else 0
    case OfCachedSlot(n) => if Covers(s.slots, n) then s.slots[n - Base(s.slots)].cached else 0
    case OfForwardedSlot(n) => if Covers(s.slots, n) then s.slots[n - Base(s.slots)].forwarded else 0
    case OfClientSlot(c, n) =>
      if c in s.clients.live && Covers(s.slots, n) then s.clients.live[c].data.overTime[n - Base(s.slots)] else 0
    case OfCname(x) => if 0 <= x && x in s.domains.live then s.domains.live[x].data.cnameRefs else 0
  }

  // ---- Small updates ----

  function WithQuery(s: State, i: nat, q: Query): State
    requires i < |s.queries|
  {
    s.(queries := s.queries[i := q])
  }

  function WithDomain(s: State, d: nat, data: Domain): State
    requires d in s.domains.live
  {
    s.(domains := Updated(s.domains, d, data))
  }

  function WithClient(s: State, c: nat, data: Client): State
    requires c in s.clients.live
  {
    s.(clients := Updated(s.clients, c, data))
  }

  function WithCache(s: State, c: nat, data: CacheData): State
    requires c in s.caches.live
  {
    s.(caches := Updated(s.caches, c, data))
  }

  function BumpUpstream(us: seq<Upstream>, u: int, d: int): seq<Upstream> {
    if 0 <= u < |us| then us[u := us[u].(count := us[u].count + d)] else us
  }

  // A reference on a domain; an ID that names no live domain is skipped
  function BumpCname(s: State, x: int, d: int): State {
    if 0 <= x && x in s.domains.live then
      var dom := s.domains.live[x].data;
      WithDomain(s, x, dom.(cnameRefs := dom.cnameRefs + d))
    else s
  }

  // ---- Status and reply of a query ----

  function Restatus(slot: Slot, was: Status, st: Status): Slot {
    slot.(blocked := slot.blocked - One(IsBlocked(was)) + One(IsBlocked(st)),
          cached := slot.cached - One(IsCached(was)) + One(IsCached(st)),
          forwarded := slot.forwarded - One(was == Forwarded) + One(st == Forwarded))
  }

  function Memorise(s: State, i: nat, st: Status, cfg: Config): State
    requires i < |s.queries|
  {
    var q := s.queries[i];
    if q.cacheID in s.caches.live then
      var c := s.caches.live[q.cacheID].data;
      WithCache(s, q.cacheID, c.(verdict := Memorised(c.verdict, st, q.timestamp, cfg.ttl)))
    else s
  }

  /** query_set_status() */
  function SetStatus(s: State, i: nat, st: Status, cfg: Config): State
    requires |s.slots| == OVERTIME_SLOTS && i < |s.queries|
  {
    var q := s.queries[i];
    if q.status == st then s
    else
      var id := GetId(s.slots, q.timestamp.Floor);
      Memorise(s, i, st, cfg).(
        status := Bump(Bump(s.status, q.status, -1), st, 1),
        slots := s.slots[id := Restatus(s.slots[id], q.status, st)],
        queries := s.queries[i := q.(status := st)])
  }

  /** _query_set_reply(), the reply type already worked out */
  function SetReply(s: State, i: nat, r: Reply): State
    requires i < |s.queries|
  {
    var q := s.queries[i];
    s.(reply := Bump(Bump(s.reply, q.reply, -1), r, 1),
       queries := s.queries[i := q.(reply := r, answered := true)])
  }

  function Completed(s: State, i: nat): State
    requires i < |s.queries|
  {
    WithQuery(s, i, s.queries[i].(complete := true))
  }

  function Answered(s: State, i: nat): State
    requires i < |s.queries|
  {
    WithQuery(s, i, s.queries[i].(answered := true))
  }

  function Unanswered(s: State, i: nat): State
    requires i < |s.queries|
  {
    WithQuery(s, i, s.queries[i].(answered := false))
  }

  // ---- Upstream servers ----

  function UpstreamIndex(us: seq<Upstream>, ip: string, port: nat): (u: nat)
    ensures u <= |us|
    ensures u < |us| ==> us[u].ip == ip && us[u].port == port
    ensures forall j :: 0 <= j < u ==> us[j].ip != ip || us[j].port != port
  {
    if us == [] then 0
    else if us[0].ip == ip && us[0].port == port then 0
    else
      var rest := UpstreamIndex(us[1..], ip, port);
      assert forall j :: 1 <= j < rest + 1 ==> us[j] == us[1..][j - 1];
      1 + rest
  }

  // _findUpstreamID(): known servers are scanned, a new one is appended
  function FindUpstream(s: State, ip: string, port: nat): State {
    if UpstreamIndex(s.upstreams, ip, port) < |s.upstreams| then s
    else s.(upstreams := s.upstreams + [Upstream(ip, port, 0)])
  }

  /** The counting part of Lorentz_forwarded(): the count moves to server u */
  function CountAt(s: State, i: nat, u: nat): State
    requires i < |s.queries|
  {
    var q := s.queries[i];
    var us := if q.counted then BumpUpstream(s.upstreams, q.upstreamID, -1) else s.upstreams;
    if u < |us| then
      s.(upstreams := BumpUpstream(us, u, 1), queries := s.queries[i := q.(upstreamID := u, counted := true)])
    else
      s.(upstreams := us, queries := s.queries[i := q.(upstreamID := u, counted := false)])
  }

  /** update_upstream(): the server that answered first takes over */
  function UpdateUpstream(s: State, i: nat, server: Option<(string, nat)>): State
    requires i < |s.queries|
  {
    if s.queries[i].answered || server.None? then s
    else
      var u := UpstreamIndex(s.upstreams, server.value.0, server.value.1);
      var s1 := FindUpstream(s, server.value.0, server.value.1);
      var q := s1.queries[i];
      if u == q.upstreamID then s1
      else if q.counted then
        s1.(upstreams := BumpUpstream(BumpUpstream(s1.upstreams, q.upstreamID, -1), u, 1),
            queries := s1.queries[i := q.(upstreamID := u)])
      else WithQuery(s1, i, q.(upstreamID := u))
  }

  function HandBack(s: State, i: nat): State
    requires i < |s.queries|
  {
    var q := s.queries[i];
    s.(upstreams := BumpUpstream(s.upstreams, q.upstreamID, -1),
       queries := s.queries[i := q.(counted := false)])
  }

  /** query_blocked() */
  function QueryBlocked(s: State, i: nat, st: Status, cfg: Config): State
    requires |s.slots| == OVERTIME_SLOTS && i < |s.queries|
  {
    var q := s.queries[i];
    if q.status == Forwarded && q.counted then SetStatus(HandBack(s, i), i, st, cfg)
    else if IsBlocked(q.status) then s
    else SetStatus(s, i, st, cfg)
  }

  // ---- Finding or creating records ----

  ghost function DomainId(s: State, name: string): nat {
    if FindId(s.domains, name).Some? then FindId(s.domains, name).value else NextId(s.domains)
  }

  // The domain is known afterwards; a new one counts no query yet
  ghost function KnowDomain(s: State, name: string): State {
    if FindId(s.domains, name).Some? then s
    else s.(domains := Created(s.domains, name, Domain(0, 0, 0.0), HashStr(name)))
  }

  ghost function ClientId(s: State, ip: string): nat {
    if FindId(s.clients, ip).Some? then FindId(s.clients, ip).value else NextId(s.clients)
  }

  ghost function KnowClient(s: State, ip: string): State {
    if FindId(s.clients, ip).Some? then s
    else s.(clients := Created(s.clients, ip, Client(0, Zeros()), HashStr(ip)))
  }

  ghost function CacheId(s: State, key: CacheKey): nat {
    if FindId(s.caches, key).Some? then FindId(s.caches, key).value else NextId(s.caches)
  }

  ghost function KnowCache(s: State, key: CacheKey): State {
    if FindId(s.caches, key).Some? then s
    else s.(caches := Created(s.caches, key, CacheData(0, -1, NoVerdict), HashKey(key)))
  }

  // ---- A new query ----

  function FreshQuery(id: int, now: real, t: QType, d: nat, c: nat, k: nat): Query {
    Query(if id < 0 then -id else id, now, t, d, c, k, -1, -1, Unknown, NoReply, false, false, false, false, false)
  }

  // The query is appended and counted everywhere
  function Enqueue(s: State, q: Query): State
    requires |s.slots| == OVERTIME_SLOTS
    requires q.domainID in s.domains.live && q.clientID in s.clients.live && q.cacheID in s.caches.live
    requires |s.clients.live[q.clientID].data.overTime| == OVERTIME_SLOTS
  {
    var id := GetId(s.slots, q.timestamp.Floor);
    var client := s.clients.live[q.clientID].data;
    var domain := s.domains.live[q.domainID].data;
    var cache := s.caches.live[q.cacheID].data;
    State(s.queries + [q], s.removed, s.gc,
          Updated(s.clients, q.clientID, Client(client.count + 1, client.overTime[id := client.overTime[id] + 1])),
          Updated(s.domains, q.domainID, Domain(domain.count + 1, domain.cnameRefs, q.timestamp)),
          Updated(s.caches, q.cacheID, cache.(refcount := cache.refcount + 1)),
          s.upstreams,
          Bump(s.status, q.status, 1), Bump(s.reply, q.reply, 1), Bump(s.qtype, q.qtype, 1),
          s.slots[id := s.slots[id].(total := s.slots[id].total + 1)])
  }

  // The three records of a query, found or created, and their IDs
  datatype Enrolment = Enrolment(state: State, clientID: nat, domainID: nat, cacheID: nat)

  ghost function Enrol(s: State, ip: string, name: string, t: QType): Enrolment {
    var c := ClientId(s, ip);
    var s1 := KnowClient(s, ip);
    var d := DomainId(s1, name);
    var s2 := KnowDomain(s1, name);
    Enrolment(KnowCache(s2, CacheKey(d, c, t)), c, d, CacheId(s2, CacheKey(d, c, t)))
  }

  ghost predicate Enrolled(e: Enrolment) {
    && |e.state.slots| == OVERTIME_SLOTS
    && e.clientID in e.state.clients.live && e.domainID in e.state.domains.live && e.cacheID in e.state.caches.live
    && |e.state.clients.live[e.clientID].data.overTime| == OVERTIME_SLOTS
  }

  /** The recording part of _Lorentz_new_query(). A rate-limited query or one of a type
      that is not analysed leaves no record, at most a client nobody counts. */
  ghost function NewQuery(s: State, ip: string, name: string, t: QType, id: int, now: real, analysed: bool): State
    requires Enrolled(Enrol(s, ip, name, t))
  {
    var e := Enrol(s, ip, name, t);
    if !analysed then KnowClient(s, ip)
    else Enqueue(e.state, FreshQuery(id, now, t, e.domainID, e.clientID, e.cacheID))
  }

  // ---- Blocking ----

  function HoldCname(s: State, i: nat, x: int): State
    requires i < |s.queries|
  {
    BumpCname(WithQuery(s, i, s.queries[i].(cname := x)), x, 1)
  }

  // A known verdict is applied without asking the lists
  function ApplyVerdict(s: State, i: nat, cfg: Config): (r: (State, bool))
    requires |s.slots| == OVERTIME_SLOTS && i < |s.queries| && s.queries[i].cacheID in s.caches.live
  {
    var q := s.queries[i];
    var c := s.caches.live[q.cacheID].data;
    var st := c.verdict.blocking;
    if IsListed(st) then
      if q.allowed then (s, false)
      else
        var s1 := QueryBlocked(s, i, st, cfg);
        (if IsCname(st) then HoldCname(s1, i, c.cname) else s1, true)
    else if st == SpecialDomain || IsExternal(st) then
      (QueryBlocked(s, i, st, cfg), st != ExternalIp)
    else
      (if c.verdict.allowed then WithQuery(s, i, q.(allowed := true)) else s, false)
  }

  // The uncached chain, then the counters and the DNS cache record
  function ApplyDecision(s: State, i: nat, d: Decision, cfg: Config): (r: (State, bool))
    requires |s.slots| == OVERTIME_SLOTS && i < |s.queries| && s.queries[i].cacheID in s.caches.live
  {
    var k := s.queries[i].cacheID;
    var c := s.caches.live[k].data;
    var s1 := WithQuery(s, i, s.queries[i].(allowed := d.allowed));
    if d.block then
      var s2 := if d.status == SpecialDomain then WithCache(s1, k, c.(verdict := c.verdict.(blocking := SpecialDomain))) else s1;
      (QueryBlocked(s2, i, d.status, cfg), true)
    else if d.dbOkay then (WithCache(s1, k, c.(verdict := c.verdict.(allowed := d.allowed))), false)
    else (s1, false)
  }

  /** Lorentz_check_blocking() for the domain `name`, interned as `domainID` */
  function CheckBlocking(s: State, i: nat, name: string, domainID: nat, lists: Lists, cfg: Config): (r: (State, bool))
    requires |s.slots| == OVERTIME_SLOTS && i < |s.queries|
    requires s.queries[i].cacheID in s.caches.live && s.queries[i].clientID in s.clients.live
  {
    var q := s.queries[i];
    if !cfg.enabled then (s, false)
    else
      var c := s.caches.live[q.cacheID].data;
      var v := Current(c.verdict, q.timestamp, cfg.ttl);
      var s1 := WithCache(s, q.cacheID, c.(verdict := v));
      if q.domainID == domainID && v.blocking != Unknown then ApplyVerdict(s1, i, cfg)
      else if q.allowed then (s1, false)
      else
        ApplyDecision(s1, i, Decide(lists, cfg, name, s.clients.live[q.clientID].key, q.qtype, false), cfg)
  }

  /** The filtering part of _Lorentz_new_query() */
  function Filter(s: State, i: nat, lists: Lists, cfg: Config): (r: (State, bool))
    requires |s.slots| == OVERTIME_SLOTS && i < |s.queries|
    requires s.queries[i].cacheID in s.caches.live && s.queries[i].clientID in s.clients.live
    requires s.queries[i].domainID in s.domains.live
  {
    var q := s.queries[i];
    var r := CheckBlocking(s, i, s.domains.live[q.domainID].key, q.domainID, lists, cfg);
    if i < |r.0.queries| then (WithQuery(r.0, i, r.0.queries[i].(released := !r.1)), r.1) else r
  }

  // The DNS cache record holds at most one reference: it moves to x
  function CacheHold(s: State, c: nat, x: int): State
    requires c in s.caches.live
  {
    var data := s.caches.live[c].data;
    if data.cname == x then s
    else BumpCname(WithCache(BumpCname(s, data.cname, -1), c, data.(cname := x)), x, 1)
  }

  // What a block found at CNAME target x records
  function BlockedByCname(s: State, i: nat, x: int, r: Reply, cfg: Config): State
    requires |s.slots| == OVERTIME_SLOTS && i < |s.queries| && s.queries[i].cacheID in s.caches.live
  {
    var s1 := HoldCname(SetReply(s, i, r), i, x);
    var s2 := CacheHold(s1, s.queries[i].cacheID, x);
    SetStatus(s2, i, CnameOf(s2.queries[i].status), cfg)
  }

  // The child domain of a CNAME is known and fresh before it is checked
  ghost function WithChild(s: State, child: string, now: real): State {
    var s1 := KnowDomain(s, child);
    WithDomain(s1, DomainId(s, child), s1.domains.live[DomainId(s, child)].data.(lastQuery := now))
  }

  /** LORENTZ_CNAME() with deep inspection on */
  ghost function Cname(s: State, i: nat, child: string, now: real, reply: Reply, lists: Lists, cfg: Config): (r: (State, bool))
    requires |s.slots| == OVERTIME_SLOTS && i < |s.queries|
    requires s.queries[i].cacheID in s.caches.live && s.queries[i].clientID in s.clients.live
  {
    var x := DomainId(s, child);
    var s2 := WithChild(s, child, now);
    var b := CheckBlocking(s2, i, child, x, lists, cfg);
    if b.1 && i < |b.0.queries| && |b.0.slots| == OVERTIME_SLOTS && b.0.queries[i].cacheID in b.0.caches.live then
      (BlockedByCname(b.0, i, x, reply, cfg), true)
    else b
  }

  // ---- Further hooks ----

  /** Lorentz_forwarded() */
  function ForwardTo(s: State, i: nat, ip: string, port: nat, cfg: Config): State
    requires |s.slots| == OVERTIME_SLOTS && i < |s.queries|
  {
    if s.queries[i].complete then s
    else
      var u := UpstreamIndex(s.upstreams, ip, port);
      var s1 := CountAt(FindUpstream(s, ip, port), i, u);
      var s2 := if s.queries[i].status == Cache then Unanswered(s1, i) else Completed(s1, i);
      SetStatus(s2, i, Forwarded, cfg)
  }

  /** The flags Lorentz_reply() looks at, and the reply type it arrives at. */
  datatype Answer = Answer(
    upstream: bool, stale: bool, config: bool, exact: bool, reverse: bool, rcode: bool,
    server: Option<(string, nat)>, reply: Reply)

  predicate Cached(a: Answer, t: QType) {
    !a.upstream || t == TypeNone
  }

  // The branches of Lorentz_reply() for the first reply of a query
  function FirstReply(s: State, i: nat, a: Answer, cfg: Config): State
    requires |s.slots| == OVERTIME_SLOTS && i < |s.queries|
  {
    var q := s.queries[i];
    var qs := if a.stale then CacheStale else Cache;
    if Cached(a, q.qtype) then
      Completed(SetReply(if IsBlocked(q.status) then s else SetStatus(s, i, qs, cfg), i, a.reply), i)
    else if a.config && a.exact && !q.complete then
      Completed(SetReply(SetStatus(s, i, qs, cfg), i, a.reply), i)
    else if a.exact then
      if q.upstreamID < 0 || q.status == ExternalNull || q.status == ExternalNxra || q.status == ExternalEde15 then s
      else SetReply(s, i, a.reply)
    else if a.reverse || q.qtype == Ptr then
      Completed(SetReply(s, i, a.reply), i)
    else if a.rcode then
      Completed(if IsBlocked(q.status) then SetReply(s, i, a.reply) else SetStatus(SetReply(s, i, a.reply), i, Cache, cfg), i)
    else s
  }

  /** Lorentz_reply() */
  function ReplyTo(s: State, i: nat, a: Answer, cfg: Config): State
    requires |s.slots| == OVERTIME_SLOTS && i < |s.queries|
  {
    var s1 := if Cached(a, s.queries[i].qtype) then s else UpdateUpstream(s, i, a.server);
    var s2 := Answered(s1, i);
    if s.queries[i].reply != NoReply then s2 else FirstReply(s2, i, a, cfg)
  }

  /** Lorentz_upstream_error() */
  function FailWith(s: State, i: nat, server: Option<(string, nat)>, reply: Reply): State
    requires i < |s.queries|
  {
    var s1 := UpdateUpstream(s, i, server);
    if i < |s1.queries| then SetReply(s1, i, reply) else s1
  }

  /** Lorentz_blocked_upstream_by_header() */
  function BlockedByHeader(s: State, i: nat, st: Status, cfg: Config): State
    requires |s.slots| == OVERTIME_SLOTS && i < |s.queries|
  {
    var s1 := QueryBlocked(s, i, st, cfg);
    if i < |s1.queries| then SetReply(s1, i, Nxdomain) else s1
  }

  /** Lorentz_dnssec() with a result that is neither secure nor insecure */
  function DropReply(s: State, i: nat): State
    requires i < |s.queries|
  {
    if s.queries[i].reply == NoReply then SetReply(s, i, Dropped) else s
  }

  /** Lorentz_forwarding_retried() */
  function Retrying(s: State, i: nat, ip: string, port: nat, dnssec: bool, cfg: Config): State
    requires |s.slots| == OVERTIME_SLOTS && i < |s.queries|
  {
    SetStatus(FindUpstream(s, ip, port), i, if dnssec then RetriedDnssec else Retried, cfg)
  }

  /** Lorentz_multiple_replies(): the duplicate takes over the outcome of its source */
  function Duplicate(s: State, src: nat, i: nat, cfg: Config): State
    requires |s.slots| == OVERTIME_SLOTS && src < |s.queries| && i < |s.queries|
  {
    var source := s.queries[src];
    var q := s.queries[i];
    var s1 := s.(reply := Bump(Bump(s.reply, q.reply, -1), source.reply, 1),
                 queries := s.queries[i := q.(reply := source.reply, complete := true)]);
    var s2 := HoldCname(s1, i, source.cname);
    if source.status != Forwarded then SetStatus(s2, i, source.status, cfg) else s2
  }

  // Who was released under the old lists is forgotten
  function Unreleased(qs: seq<Query>): (r: seq<Query>)
    ensures |r| == |qs| && forall i :: 0 <= i < |qs| ==> r[i] == qs[i].(released := false)
  {
    seq(|qs|, i requires 0 <= i < |qs| => qs[i].(released := false))
  }

  /** Lorentz_reset_per_client_domain_data(). A query released before it is, from here on,
      one that was in flight when the lists changed. */
  function Reload(s: State): State {
    s.(caches := s.caches.(live := map c | c in s.caches.live ::
         var r := s.caches.live[c];
         r.(data := r.data.(verdict := r.data.verdict.(blocking := Unknown, expires := 0)))),
       queries := Unreleased(s.queries))
  }

  // ---- Garbage collection ----

  // Query i is taken off everything but its CNAME target and its status
  ghost function Taken(s: State, i: nat): State
    requires Shaped(s) && i < |s.queries| && QueryOk(s, s.queries[i])
  {
    var q := s.queries[i];
    var id := GetId(s.slots, q.timestamp.Floor);
    var client := s.clients.live[q.clientID].data;
    var domain := s.domains.live[q.domainID].data;
    var cache := s.caches.live[q.cacheID].data;
    State(
      s.queries[i := q.(counted := if q.upstreamID > -1 then false else q.counted)], s.removed, s.gc,
      Updated(s.clients, q.clientID, Client(client.count - 1, client.overTime[id := client.overTime[id] - 1])),
      Updated(s.domains, q.domainID, domain.(count := domain.count - 1)),
      Updated(s.caches, q.cacheID, cache.(refcount := cache.refcount - 1)),
      if q.counted && q.upstreamID > -1 then BumpUpstream(s.upstreams, q.upstreamID, -1) else s.upstreams,
      Bump(s.status, Unknown, -1), Bump(s.reply, q.reply, -1), Bump(s.qtype, q.qtype, -1),
      s.slots[id := s.slots[id].(total := s.slots[id].total - 1)])
  }

  ghost function Released(s: State, i: nat): State
    requires Shaped(s) && i < |s.queries| && QueryOk(s, s.queries[i])
  {
    BumpCname(Taken(s, i), s.queries[i].cname, -1)
  }

  /** One turn of the retraction loop of runGC() */
  ghost function Retract(s: State, i: nat, cfg: Config): State
    requires Shaped(s) && i < |s.queries| && QueryOk(s, s.queries[i])
  {
    SetStatus(Released(s, i), i, Unknown, cfg)
  }

  // ---- Recycling ----

  ghost function DeadClients(s: State): set<nat> {
    set c | c in s.clients.live && s.clients.live[c].data.count <= 0
  }

  ghost function DeadDomains(s: State, now: real): set<nat> {
    set d | d in s.domains.live && s.domains.live[d].data.count <= 0 && s.domains.live[d].data.cnameRefs <= 0
            && s.domains.live[d].data.lastQuery <= now - 86400.0
  }

  ghost function DeadCaches(s: State): set<nat> {
    set c | c in s.caches.live && s.caches.live[c].data.refcount <= 0
  }

  // The records among `cs` that hold a reference on domain x
  ghost function HoldersIn(live: map<nat, Rec<CacheKey, CacheData>>, cs: set<nat>, x: int): set<nat> {
    set c | c in cs && c in live && live[c].data.cname == x
  }

  // Each recycled DNS cache record gives back the reference it holds
  ghost function GiveBack(s: State, cs: set<nat>): State {
    s.(domains := s.domains.(live := map d | d in s.domains.live ::
      var r := s.domains.live[d];
      r.(data := r.data.(cnameRefs := r.data.cnameRefs - |HoldersIn(s.caches.live, cs, d)|))))
  }

  ghost function WithoutClients(s: State): State {
    s.(clients := Recycled(s.clients, DeadClients(s)))
  }

  ghost function WithoutDomains(s: State, now: real): State {
    s.(domains := Recycled(s.domains, DeadDomains(s, now)))
  }

  ghost function WithoutCaches(s: State): State {
    GiveBack(s, DeadCaches(s)).(caches := Recycled(s.caches, DeadCaches(s)))
  }

  /** recycle(): clients, then domains, then DNS cache records */
  ghost function RecycleAll(s: State, now: real): State {
    WithoutCaches(WithoutDomains(WithoutClients(s), now))
  }

  /** moveOverTimeMemory() */
  function MoveOverTime(s: State, mintime: int): State
    requires |s.slots| == OVERTIME_SLOTS
    requires forall c :: c in s.clients.live ==> |s.clients.live[c].data.overTime| == OVERTIME_SLOTS
  {
    var m := ShiftOf(s.slots, mintime);
    if !Moves(m) then s
    else
      s.(slots := MovedSlots(s.slots, m),
         clients := s.clients.(live := map c | c in s.clients.live ::
           var r := s.clients.live[c];
           r.(data := r.data.(overTime := MovedCounts(r.data.overTime, m)))))
  }
}
