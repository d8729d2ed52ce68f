// Runs of the store: any sequence of locked sections, hooks and collector rounds
// interleaved, and what holds after every one of them.
module Runs {
  import opened Records
  import opened Interning
  import opened OverTime
  import opened Blocking
  import opened Hashing
  import opened Store
  import opened Conservation
  import opened Collection
  import opened Hooks

  /** One locked section. An index i is what findQueryID() returned. A section that finds no
      query changes nothing and is not listed, except a retry: it learns of the server
      before it looks for the query. The collector takes two sections. */
  datatype Event =
    | Arrive(ip: string, name: string, t: QType, id: int, now: real, analysed: bool)
    | Check(i: nat, lists: Lists)
    | Hop(i: nat, child: string, now: real, reply: Reply, lists: Lists)
    | Forward(i: nat, ip: string, port: nat)
    | Respond(i: nat, answer: Answer)
    | Fail(i: nat, server: Option<(string, nat)>, reply: Reply)
    | BlockByHeader(i: nat, st: Status)
    | BlockByAddress(i: nat, st: Status)
    | Retry(i: nat, ip: string, port: nat, dnssec: bool)
    | RetryUnknown(ip: string, port: nat)
    | Wait(i: nat)
    | Drop(i: nat)
    | Merge(src: nat, i: nat)
    | ReloadLists
    | Collect(mintime: int)
    | Finish(now: real)
    | Flush(time: int)

  ghost predicate IsLive(s: State, i: int) {
    s.removed <= i < |s.queries|
  }

  // What the surroundings guarantee: hooks name queries the collector has not retracted,
  // the clock does not run backwards and stays inside the window, and the collector's
  // rounds alternate
  ghost predicate Enabled(s: State, e: Event) {
    match e
    case Arrive(_, _, _, _, now, _) =>
      && |s.slots| == OVERTIME_SLOTS && 0.0 <= now && Covers(s.slots, Interval(now))
      && (s.queries != [] ==> s.queries[|s.queries| - 1].timestamp <= now)
      && (s.gc.Some? ==> s.gc.value as real <= now)
    case Check(i, _) => IsLive(s, i)
    case Hop(i, _, _, _, _) => IsLive(s, i)
    case Forward(i, _, _) => IsLive(s, i)
    case Respond(i, _) => IsLive(s, i)
    case Fail(i, _, _) => IsLive(s, i)
    case BlockByHeader(i, _) => IsLive(s, i)
    case BlockByAddress(i, _) => IsLive(s, i)
    case Retry(i, _, _, _) => IsLive(s, i)
    case RetryUnknown(_, _) => true
    case Wait(i) => IsLive(s, i)
    case Drop(i) => IsLive(s, i)
    case Merge(src, i) => IsLive(s, src) && IsLive(s, i)
    case ReloadLists => true
    case Collect(_) => s.gc.None?
    case Finish(_) => s.gc.Some?
    case Flush(_) => s.gc.None?
  }

  // The records of query i exist: no pointer a hook fetches is NULL
  ghost predicate Fetchable(s: State, i: nat) {
    Shaped(s) && i < |s.queries| && QueryOk(s, s.queries[i])
  }

  ghost function Step(s: State, e: Event, cfg: Config): State {
    match e
    case Arrive(ip, name, t, id, now, analysed) =>
      if Enrolled(Enrol(s, ip, name, t)) then NewQuery(s, ip, name, t, id, now, analysed) else s
    case Check(i, lists) => if Fetchable(s, i) then Filter(s, i, lists, cfg).0 else s
    case Hop(i, child, now, reply, lists) =>
      if Fetchable(s, i) then Cname(s, i, child, now, reply, lists, cfg).0 else s
    case Forward(i, ip, port) => if Fetchable(s, i) then ForwardTo(s, i, ip, port, cfg) else s
    case Respond(i, a) => if Fetchable(s, i) then ReplyTo(s, i, a, cfg) else s
    case Fail(i, server, reply) => if Fetchable(s, i) then FailWith(s, i, server, reply) else s
    case BlockByHeader(i, st) => if Fetchable(s, i) then BlockedByHeader(s, i, st, cfg) else s
    case BlockByAddress(i, st) => if Fetchable(s, i) then QueryBlocked(s, i, st, cfg) else s
    case Retry(i, ip, port, dnssec) => if Fetchable(s, i) then Retrying(s, i, ip, port, dnssec, cfg) else s
    case RetryUnknown(ip, port) => FindUpstream(s, ip, port)
    case Wait(i) => if Fetchable(s, i) then SetStatus(s, i, InProgress, cfg) else s
    case Drop(i) => if Fetchable(s, i) then DropReply(s, i) else s
    case Merge(src, i) => if Fetchable(s, src) && Fetchable(s, i) then Duplicate(s, src, i, cfg) else s
    case ReloadLists => Reload(s)
    case Collect(mintime) => GcBegin(s, mintime, cfg)
    case Finish(now) => if s.gc.Some? && s.removed <= |s.queries| then GcEnd(s, now) else s
    case Flush(now) =>
      var t := GcBegin(s, now, cfg);
      if t.removed <= |t.queries| then GcEnd(t, now as real) else t
  }

  // ---- Every event keeps the invariant ----

  lemma ArriveKeeps(s: State, e: Event, cfg: Config)
    requires Inv(s) && Enabled(s, e) && e.Arrive?
    ensures Inv(Step(s, e, cfg))
  {
    assert InvFrom(s, s.removed) && InWindow(s, e.now);
    hide InvFrom, Enrol, Enrolled, NewQuery, Shaped, InWindow;
    EnrolReady(s, s.removed, e.ip, e.name, e.t);
    NewQueryKeeps(s, s.removed, e.ip, e.name, e.t, e.id, e.now, e.analysed);
  }

  lemma GoodInv(s: State, i: nat, r: State)
    requires Inv(s) && Good(s, s.removed, i, r)
    ensures Inv(r)
  {
    hide InvFrom;
    GoodBasics(s, s.removed, i, r);
  }

  lemma CheckKeeps(s: State, i: nat, lists: Lists, cfg: Config)
    requires Inv(s) && IsLive(s, i)
    ensures Fetchable(s, i) && Inv(Filter(s, i, lists, cfg).0)
  {
    InvQuery(s, s.removed, i);
    hide InvFrom, Filter, Good;
    FilterGood(s, s.removed, i, lists, cfg);
    GoodInv(s, i, Filter(s, i, lists, cfg).0);
  }

  lemma HopKeeps(s: State, e: Event, cfg: Config)
    requires Inv(s) && Enabled(s, e) && e.Hop?
    ensures Inv(Step(s, e, cfg))
  {
    InvQuery(s, s.removed, e.i);
    hide InvFrom, Cname;
    CnameKeeps(s, s.removed, e.i, e.child, e.now, e.reply, e.lists, cfg);
  }

  lemma FailGood(s: State, from: nat, i: nat, server: Option<(string, nat)>, reply: Reply)
    requires InvFrom(s, from) && from <= i < |s.queries|
    ensures Good(s, from, i, FailWith(s, i, server, reply))
  {
    hide InvFrom, Good, UpdateUpstream, SetReply;
    UpdateUpstreamGood(s, from, i, server);
    ThenReply(s, from, i, UpdateUpstream(s, i, server), reply);
  }

  lemma BlockedByHeaderGood(s: State, from: nat, i: nat, st: Status, cfg: Config)
    requires InvFrom(s, from) && from <= i < |s.queries|
    ensures Good(s, from, i, BlockedByHeader(s, i, st, cfg))
  {
    hide InvFrom, Good, QueryBlocked, SetReply;
    InvSlots(s, from);
    BlockedGood(s, from, i, st, cfg);
    ThenReply(s, from, i, QueryBlocked(s, i, st, cfg), Nxdomain);
  }

  lemma DropGood(s: State, from: nat, i: nat)
    requires InvFrom(s, from) && from <= i < |s.queries|
    ensures Good(s, from, i, DropReply(s, i))
  {
    hide InvFrom, Good, SetReply;
    GoodRefl(s, from, i);
    ReplyGood(s, from, i, Dropped);
  }

  lemma RetryGood(s: State, from: nat, i: nat, ip: string, port: nat, dnssec: bool, cfg: Config)
    requires InvFrom(s, from) && from <= i < |s.queries|
    ensures Good(s, from, i, Retrying(s, i, ip, port, dnssec, cfg))
  {
    hide InvFrom, Good, FindUpstream, SetStatus;
    InvSlots(s, from);
    FindUpstreamGood(s, from, i, ip, port);
    GoodBasics(s, from, i, FindUpstream(s, ip, port));
    ThenStatus(s, from, i, FindUpstream(s, ip, port), if dnssec then RetriedDnssec else Retried, cfg);
  }

  lemma LiveFetchable(s: State, i: nat)
    requires Inv(s) && IsLive(s, i)
    ensures Fetchable(s, i) && InvFrom(s, s.removed) && |s.slots| == OVERTIME_SLOTS
  {
    InvQuery(s, s.removed, i);
    hide InvFrom, Aligned;
  }

  lemma AnswerGood(s: State, e: Event, cfg: Config)
    requires Inv(s) && Enabled(s, e) && (e.Forward? || e.Respond?)
    ensures Good(s, s.removed, e.i, Step(s, e, cfg))
  {
    var from := s.removed;
    hide Enrol, Enrolled, NewQuery, Filter, Cname, Duplicate, Reload, GcBegin, GcEnd;
    hide Inv, InvFrom, Good, ForwardTo, ReplyTo, FailWith, BlockedByHeader, QueryBlocked, Retrying, SetStatus, DropReply, Fetchable;
    LiveFetchable(s, e.i);
    match e {
      case Forward(i, ip, port) => ForwardGood(s, from, i, ip, port, cfg);
      case Respond(i, a) => ReplyToGood(s, from, i, a, cfg);
    }
  }

  lemma SettleGood(s: State, e: Event, cfg: Config)
    requires Inv(s) && Enabled(s, e) && (e.Fail? || e.Drop?)
    ensures Good(s, s.removed, e.i, Step(s, e, cfg))
  {
    var from := s.removed;
    hide Enrol, Enrolled, NewQuery, Filter, Cname, Duplicate, Reload, GcBegin, GcEnd;
    hide Inv, InvFrom, Good, ForwardTo, ReplyTo, FailWith, BlockedByHeader, QueryBlocked, Retrying, SetStatus, DropReply, Fetchable;
    LiveFetchable(s, e.i);
    match e {
      case Fail(i, server, reply) => FailGood(s, from, i, server, reply);
      case Drop(i) => DropGood(s, from, i);
    }
  }

  lemma BlockGood(s: State, e: Event, cfg: Config)
    requires Inv(s) && Enabled(s, e) && (e.BlockByHeader? || e.BlockByAddress?)
    ensures Good(s, s.removed, e.i, Step(s, e, cfg))
  {
    var from := s.removed;
    hide Enrol, Enrolled, NewQuery, Filter, Cname, Duplicate, Reload, GcBegin, GcEnd;
    hide Inv, InvFrom, Good, ForwardTo, ReplyTo, FailWith, BlockedByHeader, QueryBlocked, Retrying, SetStatus, DropReply, Fetchable;
    LiveFetchable(s, e.i);
    match e {
      case BlockByHeader(i, st) => BlockedByHeaderGood(s, from, i, st, cfg);
      case BlockByAddress(i, st) => BlockedGood(s, from, i, st, cfg);
    }
  }

  lemma RestatusGood(s: State, e: Event, cfg: Config)
    requires Inv(s) && Enabled(s, e) && (e.Retry? || e.Wait?)
    ensures Good(s, s.removed, e.i, Step(s, e, cfg))
  {
    var from := s.removed;
    hide Enrol, Enrolled, NewQuery, Filter, Cname, Duplicate, Reload, GcBegin, GcEnd;
    hide Inv, InvFrom, Good, ForwardTo, ReplyTo, FailWith, BlockedByHeader, QueryBlocked, Retrying, SetStatus, DropReply, Fetchable;
    LiveFetchable(s, e.i);
    match e {
      case Retry(i, ip, port, dnssec) => RetryGood(s, from, i, ip, port, dnssec, cfg);
      case Wait(i) => StatusGood(s, from, i, InProgress, cfg);
    }
  }

  // Every event on one query other than a blocking check or a CNAME hop
  lemma HookKeeps(s: State, e: Event, cfg: Config)
    requires Inv(s) && Enabled(s, e)
    requires e.Forward? || e.Respond? || e.Fail? || e.BlockByHeader? || e.BlockByAddress? || e.Retry? || e.Wait? || e.Drop?
    ensures Inv(Step(s, e, cfg))
  {
    hide Inv, Good, Step, Enabled;
    if e.Forward? || e.Respond? {
      AnswerGood(s, e, cfg);
    } else if e.Fail? || e.Drop? {
      SettleGood(s, e, cfg);
    } else if e.BlockByHeader? || e.BlockByAddress? {
      BlockGood(s, e, cfg);
    } else {
      RestatusGood(s, e, cfg);
    }
    GoodInv(s, e.i, Step(s, e, cfg));
  }

  lemma MergeKeeps(s: State, src: nat, i: nat, cfg: Config)
    requires Inv(s) && IsLive(s, src) && IsLive(s, i)
    ensures Fetchable(s, src) && Fetchable(s, i) && Inv(Duplicate(s, src, i, cfg))
  {
    hide Inv, InvFrom, Good, Duplicate, Fetchable;
    LiveFetchable(s, src);
    LiveFetchable(s, i);
    DuplicateGood(s, s.removed, src, i, cfg);
    GoodInv(s, i, Duplicate(s, src, i, cfg));
  }

  lemma FlushKeeps(s: State, now: int, cfg: Config)
    requires Inv(s) && s.gc.None?
    ensures Inv(Step(s, Flush(now), cfg))
  {
    hide InvFrom, RetractFrom;
    GcBeginKeeps(s, now, cfg);
    GcEndKeeps(GcBegin(s, now, cfg), now as real);
  }

  lemma StepKeeps(s: State, e: Event, cfg: Config)
    requires Inv(s) && Enabled(s, e)
    ensures Inv(Step(s, e, cfg))
  {
    match e {
      case Arrive(_, _, _, _, _, _) => ArriveKeeps(s, e, cfg);
      case Check(i, lists) => CheckKeeps(s, i, lists, cfg);
      case Hop(_, _, _, _, _) => HopKeeps(s, e, cfg);
      case Merge(src, i) => MergeKeeps(s, src, i, cfg);
      case ReloadLists => ReloadKeeps(s, s.removed);
      case RetryUnknown(ip, port) =>
        hide InvFrom, UpstreamIndex;
        FindUpstreamKeeps(s, s.removed, ip, port);
      case Collect(mintime) => GcBeginKeeps(s, mintime, cfg);
      case Finish(now) => GcEndKeeps(s, now);
      case Flush(now) => FlushKeeps(s, now, cfg);
      case _ => HookKeeps(s, e, cfg);
    }
  }

  // ---- Whole runs ----

  ghost function Exec(start: nat, events: seq<Event>, cfg: Config): State {
    if events == [] then Store.Initial(start)
    else Step(Exec(start, events[..|events| - 1], cfg), events[|events| - 1], cfg)
  }

  ghost predicate Orderly(start: nat, events: seq<Event>, cfg: Config) {
    forall k :: 0 <= k < |events| ==> Enabled(Exec(start, events[..k], cfg), events[k])
  }

  lemma InitialInv(start: nat)
    requires start >= 86400
    ensures Inv(Store.Initial(start))
  {
  }

  /** The store's invariant holds after every orderly run from the empty store. */
  lemma {:induction false} RunsKeepInv(start: nat, events: seq<Event>, cfg: Config)
    requires start >= 86400 && Orderly(start, events, cfg)
    ensures Inv(Exec(start, events, cfg))
    decreases |events|
  {
    if events == [] {
      InitialInv(start);
    } else {
      var n := |events| - 1;
      assert forall k :: 0 <= k < n ==> events[..n][..k] == events[..k];
      RunsKeepInv(start, events[..n], cfg);
      hide Inv, Step, Enabled;
      StepKeeps(Exec(start, events[..n], cfg), events[n], cfg);
    }
  }

  // ---- What the invariant says ----

  ghost function Live(s: State): seq<Query>
    requires s.removed <= |s.queries|
  {
    s.queries[s.removed..]
  }

  // Every ID a query holds names a record that is in use
  ghost predicate Resolved(s: State, q: Query) {
    && q.domainID in s.domains.live
    && q.clientID in s.clients.live
    && q.cacheID in s.caches.live
    && s.caches.live[q.cacheID].key == CacheKey(q.domainID, q.clientID, q.qtype)
    && (q.cname == -1 || (0 <= q.cname && q.cname in s.domains.live))
    && -1 <= q.upstreamID < |s.upstreams|
  }

  ghost predicate CacheResolved(s: State, c: nat)
    requires c in s.caches.live
  {
    var r := s.caches.live[c];
    && r.key.domainID in s.domains.live
    && r.key.clientID in s.clients.live
    && (r.data.cname == -1 || (0 <= r.data.cname && r.data.cname in s.domains.live))
  }

  lemma InvResolves(s: State)
    requires Inv(s)
    ensures forall i :: IsLive(s, i) ==> Resolved(s, s.queries[i])
    ensures forall c :: c in s.caches.live ==> CacheResolved(s, c)
  {
    forall i | IsLive(s, i)
      ensures Resolved(s, s.queries[i])
    {
      hide InvFrom;
      InvQuery(s, s.removed, i);
      CnameRange(s, s.removed, i);
    }
    forall c | c in s.caches.live
      ensures CacheResolved(s, c)
    {
      assert CachesOk(s);
      hide InvFrom;
      if s.caches.live[c].data.cname >= 0 {
        CacheCnameLive(s, s.removed, c);
      }
    }
  }

  /** No ID dangles: in every run, every ID held by a live query or a live DNS cache record
      names a record that was not recycled. */
  lemma RunsNeverDangle(start: nat, events: seq<Event>, cfg: Config)
    requires start >= 86400 && Orderly(start, events, cfg)
    ensures var s := Exec(start, events, cfg);
            && (forall i :: IsLive(s, i) ==> Resolved(s, s.queries[i]))
            && (forall c :: c in s.caches.live ==> CacheResolved(s, c))
  {
    RunsKeepInv(start, events, cfg);
    hide Inv;
    InvResolves(Exec(start, events, cfg));
  }

  ghost function TalliedSum(s: State, ks: seq<Tally>): int
    requires Shaped(s)
  {
    if ks == [] then 0 else Tallied(s, ks[0]) + TalliedSum(s, ks[1..])
  }

  lemma {:induction false} TalliedSumCounts(s: State, from: nat, ks: seq<Tally>)
    requires Shaped(s) && from <= |s.queries| && Conserved(s, from)
    requires forall i :: 0 <= i < |ks| ==> !ks[i].OfCname?
    ensures TalliedSum(s, ks) == CountSum(s.queries[from..], ks)
    decreases |ks|
  {
    hide Tallied, Count, Aligned;
    if ks != [] {
      assert forall i :: 0 <= i < |ks[1..]| ==> ks[1..][i] == ks[i + 1];
      TalliedSumCounts(s, from, ks[1..]);
    }
  }

  lemma EnumSums(s: State, from: nat)
    requires Shaped(s) && from <= |s.queries| && Conserved(s, from)
    ensures TalliedSum(s, StatusTallies()) == |s.queries| - from
    ensures TalliedSum(s, ReplyTallies()) == |s.queries| - from
    ensures TalliedSum(s, TypeTallies()) == |s.queries| - from
  {
    hide Conserved, Aligned, TalliedSum, CountSum, HitSum;
    var live := s.queries[from..];
    forall i | 0 <= i < |live|
      ensures HitSum(live[i], StatusTallies()) == HitSum(live[i], ReplyTallies()) == HitSum(live[i], TypeTallies()) == 1
    {
      StatusPartition(live[i]);
      ReplyPartition(live[i]);
      TypePartition(live[i]);
    }
    TalliedSumCounts(s, from, StatusTallies());
    TalliedSumCounts(s, from, ReplyTallies());
    TalliedSumCounts(s, from, TypeTallies());
    PartitionSums(live, StatusTallies());
    PartitionSums(live, ReplyTallies());
    PartitionSums(live, TypeTallies());
  }

  /** In every run the status, reply and type counters equal the counts over the live
      queries, and each of the three arrays sums to the number of live queries. */
  lemma RunsConserveEnums(start: nat, events: seq<Event>, cfg: Config)
    requires start >= 86400 && Orderly(start, events, cfg)
    ensures var s := Exec(start, events, cfg);
            && Shaped(s)
            && (forall x: Status :: Get(s.status, x) == Count(Live(s), OfStatus(x)))
            && (forall x: Reply :: Get(s.reply, x) == Count(Live(s), OfReply(x)))
            && (forall x: QType :: Get(s.qtype, x) == Count(Live(s), OfType(x)))
            && TalliedSum(s, StatusTallies()) == TalliedSum(s, ReplyTallies()) == TalliedSum(s, TypeTallies()) == |Live(s)|
  {
    RunsKeepInv(start, events, cfg);
    var s := Exec(start, events, cfg);
    hide Exec, Orderly, Tables, QueriesOk, CachesOk, Ordered, CnameCovered, Aligned, Count, TalliedSum, Get;
    EnumSums(s, s.removed);
    forall x: Status
      ensures Get(s.status, x) == Count(Live(s), OfStatus(x))
    {
      assert Tallied(s, OfStatus(x)) == Count(Live(s), OfStatus(x));
    }
    forall x: Reply
      ensures Get(s.reply, x) == Count(Live(s), OfReply(x))
    {
      assert Tallied(s, OfReply(x)) == Count(Live(s), OfReply(x));
    }
    forall x: QType
      ensures Get(s.qtype, x) == Count(Live(s), OfType(x))
    {
      assert Tallied(s, OfType(x)) == Count(Live(s), OfType(x));
    }
  }

  /** In every run an upstream server counts exactly the live queries counted at it: a count
      is taken once and handed back once, whoever hands it back. */
  lemma RunsCountUpstreams(start: nat, events: seq<Event>, cfg: Config)
    requires start >= 86400 && Orderly(start, events, cfg)
    ensures var s := Exec(start, events, cfg);
            && s.removed <= |s.queries|
            && (forall u :: 0 <= u < |s.upstreams| ==> s.upstreams[u].count == Count(Live(s), OfUpstream(u)))
            && (forall i :: IsLive(s, i) && s.queries[i].counted ==> 0 <= s.queries[i].upstreamID < |s.upstreams|)
  {
    RunsKeepInv(start, events, cfg);
    hide Exec, Orderly, Tables, CachesOk, Ordered, CnameCovered, Aligned, Count, Conserved, QueriesOk;
    InvCountsUpstreams(Exec(start, events, cfg));
  }

  lemma InvCountsUpstreams(s: State)
    requires Shaped(s) && Conserved(s, s.removed) && QueriesOk(s)
    ensures forall u :: 0 <= u < |s.upstreams| ==> s.upstreams[u].count == Count(Live(s), OfUpstream(u))
    ensures forall i :: IsLive(s, i) && s.queries[i].counted ==> 0 <= s.queries[i].upstreamID < |s.upstreams|
  {
    hide Aligned, Count;
    forall u | 0 <= u < |s.upstreams|
      ensures s.upstreams[u].count == Count(Live(s), OfUpstream(u))
    {
      assert Tallied(s, OfUpstream(u)) == Count(Live(s), OfUpstream(u));
    }
    assert forall i :: IsLive(s, i) ==> QueryOk(s, s.queries[i]);
  }

  // The slots hold the counts of their ten minutes, each client's among them
  ghost predicate SlotsFilled(s: State)
    requires Shaped(s)
  {
    var b := Base(s.slots);
    && (forall j :: 0 <= j < OVERTIME_SLOTS ==>
         && s.slots[j].total == Count(Live(s), OfSlot(b + j))
         && s.slots[j].blocked == Count(Live(s), OfBlockedSlot(b + j))
         && s.slots[j].cached == Count(Live(s), OfCachedSlot(b + j))
         && s.slots[j].forwarded == Count(Live(s), OfForwardedSlot(b + j)))
    && (forall c, j :: c in s.clients.live && 0 <= j < OVERTIME_SLOTS ==>
         s.clients.live[c].data.overTime[j] == Count(Live(s), OfClientSlot(c, b + j)))
  }

  ghost function SlotTallies(b: int): seq<Tally> {
    seq(OVERTIME_SLOTS, i => OfSlot(b + i))
  }

  lemma SlotFilled(s: State, j: nat)
    requires Shaped(s) && Conserved(s, s.removed) && j < OVERTIME_SLOTS
    ensures var b := Base(s.slots);
            && s.slots[j].total == Count(Live(s), OfSlot(b + j))
            && s.slots[j].blocked == Count(Live(s), OfBlockedSlot(b + j))
            && s.slots[j].cached == Count(Live(s), OfCachedSlot(b + j))
            && s.slots[j].forwarded == Count(Live(s), OfForwardedSlot(b + j))
  {
    hide Aligned, Count, Base;
    var n := Base(s.slots) + j;
    assert Tallied(s, OfSlot(n)) == s.slots[j].total;
    assert Tallied(s, OfBlockedSlot(n)) == s.slots[j].blocked;
    assert Tallied(s, OfCachedSlot(n)) == s.slots[j].cached;
    assert Tallied(s, OfForwardedSlot(n)) == s.slots[j].forwarded;
  }

  lemma ClientSlotFilled(s: State, c: nat, j: nat)
    requires Shaped(s) && Conserved(s, s.removed) && c in s.clients.live && j < OVERTIME_SLOTS
    ensures s.clients.live[c].data.overTime[j] == Count(Live(s), OfClientSlot(c, Base(s.slots) + j))
  {
    hide Aligned, Count, Base;
    assert Tallied(s, OfClientSlot(c, Base(s.slots) + j)) == s.clients.live[c].data.overTime[j];
  }

  lemma InvFillsSlots(s: State)
    requires Shaped(s) && Conserved(s, s.removed)
    ensures SlotsFilled(s)
  {
    hide Aligned, Count, Base, Conserved;
    forall j | 0 <= j < OVERTIME_SLOTS {
      SlotFilled(s, j);
    }
    forall c, j | c in s.clients.live && 0 <= j < OVERTIME_SLOTS {
      ClientSlotFilled(s, c, j);
    }
  }

  lemma OneSlotEach(s: State, i: nat)
    requires Shaped(s) && i < |s.queries| && QueryOk(s, s.queries[i])
    ensures HitSum(s.queries[i], SlotTallies(Base(s.slots))) == 1
  {
    hide Aligned, Interval, Base, HitSum;
    HitSumOne(s.queries[i], SlotTallies(Base(s.slots)), Interval(s.queries[i].timestamp) - Base(s.slots));
  }

  lemma SlotsSum(s: State)
    requires Shaped(s) && Conserved(s, s.removed) && QueriesOk(s)
    ensures TalliedSum(s, SlotTallies(Base(s.slots))) == |Live(s)|
  {
    hide Aligned, TalliedSum, CountSum, HitSum, QueryOk, Base, Conserved;
    var ks := SlotTallies(Base(s.slots));
    forall i | 0 <= i < |Live(s)|
      ensures HitSum(Live(s)[i], ks) == 1
    {
      OneSlotEach(s, s.removed + i);
    }
    TalliedSumCounts(s, s.removed, ks);
    PartitionSums(Live(s), ks);
  }

  /** In every run each slot, globally and per client, counts the live queries of its ten
      minutes, and the slots together count every live query once. */
  lemma RunsFillSlots(start: nat, events: seq<Event>, cfg: Config)
    requires start >= 86400 && Orderly(start, events, cfg)
    ensures var s := Exec(start, events, cfg);
            Shaped(s) && SlotsFilled(s) && TalliedSum(s, SlotTallies(Base(s.slots))) == |Live(s)|
  {
    RunsKeepInv(start, events, cfg);
    var s := Exec(start, events, cfg);
    hide Exec, Orderly, Tables, CachesOk, Ordered, CnameCovered, Aligned, Conserved, QueriesOk, SlotsFilled, TalliedSum;
    InvFillsSlots(s);
    SlotsSum(s);
  }

  /** In every run the three tables are valid: sorted, in bijection with their records, one
      ID per key, free IDs listed once and unused. */
  lemma RunsKeepTables(start: nat, events: seq<Event>, cfg: Config)
    requires start >= 86400 && Orderly(start, events, cfg)
    ensures var s := Exec(start, events, cfg);
            && Interning.Valid(s.clients, HashStr) && Interning.Valid(s.domains, HashStr) && Interning.Valid(s.caches, HashKey)
  {
    RunsKeepInv(start, events, cfg);
  }

  /** The first query of any name and client can arrive at once, and is then the one live
      query and counted as such. */
  lemma FirstArrival(start: nat, ip: string, name: string, t: QType, id: int, cfg: Config)
    requires start >= 86400
    ensures var events := [Arrive(ip, name, t, id, start as real, true)];
            var s := Exec(start, events, cfg);
            && Orderly(start, events, cfg)
            && |s.queries| == 1 && s.removed == 0 && s.gc.None? && Get(s.status, Unknown) == 1
            && s.queries[0].timestamp == start as real
  {
    var e := Arrive(ip, name, t, id, start as real, true);
    var s0 := Store.Initial(start);
    assert s0.queries == [] && s0.removed == 0 && s0.gc.None? && Get(s0.status, Unknown) == 0;
    InitialInv(start);
    InitialEnabled(start, e);
    hide *;
    InvBegins(s0);
    OneEvent(start, e, cfg);
    EnrolReady(s0, 0, ip, name, t);
    EnrolKeeps(s0, 0, ip, name, t);
    FirstStep(s0, e, cfg);
  }

  lemma InvBegins(s: State)
    requires Inv(s) && s.removed == 0
    ensures InvFrom(s, 0)
  {
    hide InvFrom;
  }

  lemma InitialEnabled(start: nat, e: Event)
    requires e.Arrive? && e.now == start as real
    ensures Enabled(Store.Initial(start), e)
  {
  }

  lemma OneEvent(start: nat, e: Event, cfg: Config)
    requires Enabled(Store.Initial(start), e)
    ensures Orderly(start, [e], cfg) && Exec(start, [e], cfg) == Step(Store.Initial(start), e, cfg)
  {
    hide Enabled, Step;
    assert [e][..0] == [];
  }

  lemma FirstStep(s: State, e: Event, cfg: Config)
    requires e.Arrive? && e.analysed && Enrolled(Enrol(s, e.ip, e.name, e.t))
    requires var en := Enrol(s, e.ip, e.name, e.t); en.state.queries == s.queries && en.state.removed == s.removed && en.state.gc == s.gc && en.state.status == s.status
    ensures var r := Step(s, e, cfg);
            && |r.queries| == |s.queries| + 1 && r.removed == s.removed && r.gc == s.gc
            && r.queries[|s.queries|].timestamp == e.now && Get(r.status, Unknown) == Get(s.status, Unknown) + 1
  {
    hide Enrol, Updated, GetId;
  }

  // ---- When a flush meets a collection ----

  lemma RetractTypeSum(s: State, i: nat, cfg: Config, ks: seq<Tally>)
    requires Fetchable(s, i) && CachesOk(s) && Shaped(Retract(s, i, cfg))
    requires forall j :: 0 <= j < |ks| ==> ks[j].OfType?
    ensures TalliedSum(Retract(s, i, cfg), ks) == TalliedSum(s, ks) - HitSum(s.queries[i], ks)
    decreases |ks|
  {
    if ks != [] {
      assert forall j :: 0 <= j < |ks[1..]| ==> ks[1..][j] == ks[j + 1];
      RetractTypeSum(s, i, cfg, ks[1..]);
      RetractTypeTally(s, i, cfg, ks[0].t);
    }
  }

  lemma RetractTypeTally(s: State, i: nat, cfg: Config, t: QType)
    requires Fetchable(s, i) && Shaped(Retract(s, i, cfg))
    ensures Tallied(Retract(s, i, cfg), OfType(t)) == Tallied(s, OfType(t)) - Hit(s.queries[i], OfType(t))
  {
    hide Aligned, GetId, Memorised, Restatus;
  }

  // Each turn of the loop takes one query off the type counters, retracted before or not
  lemma {:induction false} RetractFromTypeSum(s: State, i: nat, mintime: int, cfg: Config)
    requires Shaped(s) && CachesOk(s) && i <= |s.queries|
    ensures var r := RetractFrom(s, i, mintime, cfg);
            && Shaped(r.0) && i <= r.1 <= |r.0.queries| == |s.queries|
            && TalliedSum(r.0, TypeTallies()) == TalliedSum(s, TypeTallies()) - (r.1 - i)
    decreases |s.queries| - i
  {
    hide Retract, Tallied, TalliedSum, QueryOk, CachesOk, Shaped, SameFrame, HitSum, Holders;
    if i < |s.queries| && s.queries[i].timestamp <= mintime as real && QueryOk(s, s.queries[i]) {
      var t := Retract(s, i, cfg);
      RetractFrame(s, i, cfg);
      SameFrameCaches(s, t);
      SameFrameBasics(s, t);
      RetractTypeSum(s, i, cfg, TypeTallies());
      TypePartition(s.queries[i]);
      RetractFromTypeSum(t, i + 1, mintime, cfg);
    }
  }

  // The loop does nothing exactly if the oldest query in the table is too new
  lemma RetractStarts(s: State, time: int, cfg: Config)
    requires Inv(s)
    ensures RetractFrom(s, 0, time, cfg).1 == 0 <==> s.queries == [] || s.queries[0].timestamp > time as real
    ensures RetractFrom(s, 0, time, cfg).1 == 0 ==> RetractFrom(s, 0, time, cfg).0 == s
  {
    if s.queries != [] && s.queries[0].timestamp <= time as real {
      InvQuery(s, s.removed, 0);
      assert CachesOk(s);
      hide Inv, InvFrom, Retract, Shaped, QueryOk, CachesOk, SameFrame, Holders, TalliedSum;
      RetractFrame(s, 0, cfg);
      SameFrameBasics(s, Retract(s, 0, cfg));
      SameFrameCaches(s, Retract(s, 0, cfg));
      RetractFromTypeSum(Retract(s, 0, cfg), 1, time, cfg);
    }
  }

  /** A flush runs the retraction loop over all queries under one lock. Afterwards the
      counters equal the counts over the queries retracted neither by it nor before it,
      exactly if no collection is between its two rounds with queries retracted, or the
      oldest of those is too new for the flush. Otherwise queries are taken off twice. */
  lemma FlushConservesIff(s: State, time: int, cfg: Config)
    requires Inv(s)
    ensures var r := RetractFrom(s, 0, time, cfg);
            var live := if s.removed < r.1 then r.1 else s.removed;
            && Shaped(r.0) && s.removed <= live <= |r.0.queries|
            && (Conserved(r.0, live) <==> s.removed == 0 || s.queries[0].timestamp > time as real)
  {
    hide *;
    var r := RetractFrom(s, 0, time, cfg);
    var live := if s.removed < r.1 then r.1 else s.removed;
    InvParts(s);
    EnumSums(s, s.removed);
    RetractFromTypeSum(s, 0, time, cfg);
    RetractStarts(s, time, cfg);
    if s.removed == 0 {
      InvBegins(s);
      RetractFromKeeps(s, 0, time, cfg);
      InvFromConserves(r.0, r.1);
    } else if r.1 > 0 && Conserved(r.0, live) {
      EnumSums(r.0, live);
      assert false;
    }
  }

  lemma InvFromConserves(s: State, from: nat)
    requires InvFrom(s, from)
    ensures Shaped(s) && from <= |s.queries| && Conserved(s, from)
  {
    hide Tables, QueriesOk, CachesOk, Ordered, Conserved, CnameCovered;
  }

  lemma TwoEvents(start: nat, e: Event, c: Event, cfg: Config)
    requires Orderly(start, [e], cfg) && Enabled(Exec(start, [e], cfg), c)
    ensures Orderly(start, [e, c], cfg) && Exec(start, [e, c], cfg) == Step(Exec(start, [e], cfg), c, cfg)
  {
    var events := [e, c];
    assert events[..1] == [e];
    assert forall k :: 0 <= k < 1 ==> events[..k] == [e][..k] && events[k] == [e][k];
    hide Enabled, Step;
  }

  lemma InvParts(s: State)
    requires Inv(s)
    ensures InvFrom(s, s.removed) && Shaped(s) && CachesOk(s) && s.removed <= |s.queries| && Conserved(s, s.removed)
  {
    hide Tables, QueriesOk, CachesOk, Ordered, Conserved, CnameCovered;
  }

  lemma RetractLast(s: State, mintime: int, cfg: Config)
    requires |s.queries| == 1 && s.queries[0].timestamp <= mintime as real && Shaped(s) && QueryOk(s, s.queries[0])
    requires |Retract(s, 0, cfg).queries| == 1
    ensures RetractFrom(s, 0, mintime, cfg) == (Retract(s, 0, cfg), 1)
  {
    hide Retract, Shaped, QueryOk;
    assert RetractFrom(Retract(s, 0, cfg), 1, mintime, cfg) == (Retract(s, 0, cfg), 1);
  }

  // A collection that finds one query, old enough
  lemma RetractOnly(s: State, mintime: int, cfg: Config)
    requires Inv(s) && |s.queries| == 1 && s.removed == 0 && s.queries[0].timestamp <= mintime as real
    ensures var r := GcBegin(s, mintime, cfg);
            |r.queries| == r.removed == 1 && r.queries[0].timestamp == s.queries[0].timestamp
  {
    var t := GcBegin(s, mintime, cfg);
    assert t.queries == RetractFrom(s, 0, mintime, cfg).0.queries && t.removed == RetractFrom(s, 0, mintime, cfg).1;
    hide *;
    InvBegins(s);
    InvQuery(s, 0, 0);
    RetractKeeps(s, 0, cfg);
    RetractLast(s, mintime, cfg);
  }

  // The one query of the table, taken off a second time
  lemma TwiceOff(s: State, time: int, cfg: Config)
    requires Inv(s) && |s.queries| == s.removed == 1 && s.queries[0].timestamp <= time as real
    ensures var r := RetractFrom(s, 0, time, cfg);
            r.1 == 1 && Shaped(r.0) && |r.0.queries| == 1 && !Conserved(r.0, 1) && TalliedSum(r.0, TypeTallies()) == -1
  {
    hide *;
    InvParts(s);
    EnumSums(s, 1);
    RetractFromTypeSum(s, 0, time, cfg);
    RetractStarts(s, time, cfg);
    FlushConservesIff(s, time, cfg);
  }

  /** The fault is reachable: a query arrives, a collection retracts it, and before the
      second round a flush takes it off again. The counters then sum to one less than
      nothing. */
  lemma FlushTwice(start: nat, ip: string, name: string, t: QType, id: int, mintime: int, time: int, cfg: Config)
    requires start >= 86400 && start <= mintime && start <= time
    ensures var events := [Arrive(ip, name, t, id, start as real, true), Collect(mintime)];
            var s := Exec(start, events, cfg);
            var r := RetractFrom(s, 0, time, cfg);
            && Orderly(start, events, cfg)
            && |s.queries| == s.removed == 1 && r.1 == 1
            && Shaped(r.0) && |r.0.queries| == 1 && !Conserved(r.0, 1) && TalliedSum(r.0, TypeTallies()) == -1
  {
    var e, c := Arrive(ip, name, t, id, start as real, true), Collect(mintime);
    hide *;
    FirstArrival(start, ip, name, t, id, cfg);
    var s1 := Exec(start, [e], cfg);
    RunsKeepInv(start, [e], cfg);
    CollectStep(s1, mintime, cfg);
    TwoEvents(start, e, c, cfg);
    RunsKeepInv(start, [e, c], cfg);
    RetractOnly(s1, mintime, cfg);
    TwiceOff(GcBegin(s1, mintime, cfg), time, cfg);
  }

  lemma CollectStep(s: State, mintime: int, cfg: Config)
    requires s.gc.None?
    ensures Enabled(s, Collect(mintime)) && Step(s, Collect(mintime), cfg) == GcBegin(s, mintime, cfg)
  {
    hide GcBegin;
  }
}
