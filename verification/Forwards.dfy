// Over whole runs: every forwarded query is counted at a server.
module Forwards {
  import opened Records
  import opened Interning
  import opened OverTime
  import opened Blocking
  import opened Hashing
  import opened Store
  import opened Conservation
  import opened Collection
  import opened Hooks
  import opened Runs
  import opened Hops
  import opened Effects
  import opened Recycling

  // A query recorded as forwarded is counted at its server
  predicate Attended(q: Query) {
    q.status == Forwarded ==> q.counted
  }

  ghost predicate AllAttended(s: State) {
    forall i :: IsLive(s, i) ==> Attended(s.queries[i])
  }

  // A block reported by an upstream server carries one of the blocked statuses
  predicate Genuine(e: Event) {
    e.BlockByHeader? || e.BlockByAddress? ==> IsBlocked(e.st)
  }

  // ---- One query changes ----

  lemma OneAttended(s: State, i: nat, r: State)
    requires AllAttended(s) && OnlyQuery(s, i, r) && r.removed == s.removed
    requires IsLive(s, i) ==> Attended(r.queries[i])
    ensures AllAttended(r)
  {
  }

  // What the blocking check may make of a query: blocked and off its server, or allowed
  ghost predicate Screened(q: Query, p: Query) {
    Attended(q) ==> Attended(p)
  }

  lemma BlockScreens(s: State, i: nat, st: Status, cfg: Config)
    requires |s.slots| == OVERTIME_SLOTS && i < |s.queries| && IsBlocked(st)
    ensures var r := QueryBlocked(s, i, st, cfg); |r.queries| == |s.queries| && Screened(s.queries[i], r.queries[i])
  {
    hide QueryBlocked;
    if IsBlocked(s.queries[i].status) {
      BlockedAgain(s, i, st, cfg);
    } else {
      BlockAt(s, i, st, cfg);
    }
  }

  lemma VerdictScreens(s: State, i: nat, cfg: Config)
    requires |s.slots| == OVERTIME_SLOTS && i < |s.queries| && s.queries[i].cacheID in s.caches.live
    ensures var r := ApplyVerdict(s, i, cfg).0; |r.queries| == |s.queries| && Screened(s.queries[i], r.queries[i])
  {
    hide QueryBlocked;
    var c := s.caches.live[s.queries[i].cacheID].data;
    var st := c.verdict.blocking;
    if IsListed(st) || st == SpecialDomain || IsExternal(st) {
      BlockScreens(s, i, st, cfg);
      HoldScreens(QueryBlocked(s, i, st, cfg), i, c.cname);
    }
    hide HoldCname;
  }

  lemma HoldScreens(s: State, i: nat, x: int)
    requires i < |s.queries|
    ensures var r := HoldCname(s, i, x); |r.queries| == |s.queries| && Screened(s.queries[i], r.queries[i])
  {
  }

  lemma DecisionScreens(s: State, i: nat, d: Decision, cfg: Config)
    requires |s.slots| == OVERTIME_SLOTS && i < |s.queries| && s.queries[i].cacheID in s.caches.live
    requires d.block ==> IsBlocked(d.status)
    ensures var r := ApplyDecision(s, i, d, cfg).0; |r.queries| == |s.queries| && Screened(s.queries[i], r.queries[i])
  {
    hide QueryBlocked;
    var k := s.queries[i].cacheID;
    var c := s.caches.live[k].data;
    var s1 := WithQuery(s, i, s.queries[i].(allowed := d.allowed));
    if d.block {
      var special := WithCache(s1, k, c.(verdict := c.verdict.(blocking := SpecialDomain)));
      BlockScreens(if d.status == SpecialDomain then special else s1, i, d.status, cfg);
    }
  }

  lemma DecideBlocks(lists: Lists, cfg: Config, domain: string, client: string, t: QType)
    ensures var d := Decide(lists, cfg, domain, client, t, false); d.block ==> IsBlocked(d.status)
  {
    DecideReason(lists, cfg, domain, client, t, Decide(lists, cfg, domain, client, t, false).status);
    hide Decide, Judging;
  }

  lemma CheckScreens(s: State, i: nat, name: string, domainID: nat, lists: Lists, cfg: Config)
    requires |s.slots| == OVERTIME_SLOTS && i < |s.queries|
    requires s.queries[i].cacheID in s.caches.live && s.queries[i].clientID in s.clients.live
    ensures var r := CheckBlocking(s, i, name, domainID, lists, cfg).0;
            |r.queries| == |s.queries| && Screened(s.queries[i], r.queries[i])
  {
    hide ApplyDecision, ApplyVerdict, Decide, Current;
    var q := s.queries[i];
    var c := s.caches.live[q.cacheID].data;
    var s1 := WithCache(s, q.cacheID, c.(verdict := Current(c.verdict, q.timestamp, cfg.ttl)));
    VerdictScreens(s1, i, cfg);
    DecideBlocks(lists, cfg, name, s.clients.live[q.clientID].key, q.qtype);
    DecisionScreens(s1, i, Decide(lists, cfg, name, s.clients.live[q.clientID].key, q.qtype, false), cfg);
  }

  // ---- Every event ----

  lemma CheckAttends(s: State, i: nat, lists: Lists, cfg: Config)
    requires Inv(s) && IsLive(s, i) && AllAttended(s)
    ensures Fetchable(s, i) && AllAttended(Filter(s, i, lists, cfg).0)
  {
    hide Inv, InvFrom, Good, CheckBlocking, AllAttended, InWindow, Aligned;
    LiveSlots(s, i);
    var q := s.queries[i];
    FilterGood(s, s.removed, i, lists, cfg);
    CheckScreens(s, i, s.domains.live[q.domainID].key, q.domainID, lists, cfg);
    HookAttends(s, i, Filter(s, i, lists, cfg).0);
  }

  lemma LiveAttended(s: State, i: nat)
    requires AllAttended(s) && IsLive(s, i)
    ensures Attended(s.queries[i])
  {
  }

  lemma HopAttends(s: State, e: Event, cfg: Config)
    requires Inv(s) && Enabled(s, e) && AllAttended(s) && e.Hop?
    ensures Fetchable(s, e.i) && AllAttended(Cname(s, e.i, e.child, e.now, e.reply, e.lists, cfg).0)
  {
    hide Inv, InvFrom, Good, WithChild, DomainId, CheckBlocking, BlockedByCname, AllAttended, InWindow, Aligned;
    var i, x := e.i, DomainId(s, e.child);
    LiveSlots(s, i);
    LiveAttended(s, i);
    ChildEffect(s, e.child, e.now);
    var s2 := WithChild(s, e.child, e.now);
    WithChildKeeps(s, s.removed, e.child, e.now);
    CheckBlockingGood(s2, s.removed, i, e.child, x, e.lists, cfg);
    var b := CheckBlocking(s2, i, e.child, x, e.lists, cfg);
    GoodBasics(s2, s.removed, i, b.0);
    CheckScreens(s2, i, e.child, x, e.lists, cfg);
    if b.1 {
      TargetEffect(b.0, i, x, e.reply, cfg);
      BlockedByCnameGood(b.0, s.removed, i, x, e.reply, cfg);
      GoodBasics(b.0, s.removed, i, BlockedByCname(b.0, i, x, e.reply, cfg));
    }
    OneAttended(s, i, Cname(s, i, e.child, e.now, e.reply, e.lists, cfg).0);
  }

  // An event that only query i feels, with the query it leaves
  lemma HookAttends(s: State, i: nat, r: State)
    requires AllAttended(s) && IsLive(s, i) && Good(s, s.removed, i, r)
    requires i < |r.queries| && (Attended(s.queries[i]) ==> Attended(r.queries[i]))
    ensures AllAttended(r)
  {
    hide Good, AllAttended;
    GoodBasics(s, s.removed, i, r);
    LiveAttended(s, i);
    OneAttended(s, i, r);
  }

  lemma ForwardAttends(s: State, i: nat, ip: string, port: nat, cfg: Config)
    requires Inv(s) && IsLive(s, i) && AllAttended(s)
    ensures Fetchable(s, i) && AllAttended(ForwardTo(s, i, ip, port, cfg))
  {
    hide Inv, InvFrom, Good, ForwardTo, AllAttended, Fetchable, Serves, CountMoves;
    LiveSlots(s, i);
    ForwardGood(s, s.removed, i, ip, port, cfg);
    ForwardEffect(s, i, ip, port, cfg);
    HookAttends(s, i, ForwardTo(s, i, ip, port, cfg));
  }

  lemma RespondAttends(s: State, i: nat, a: Answer, cfg: Config)
    requires Inv(s) && IsLive(s, i) && AllAttended(s)
    ensures Fetchable(s, i) && AllAttended(ReplyTo(s, i, a, cfg))
  {
    hide Inv, InvFrom, Good, ReplyTo, AllAttended, Fetchable, TakesOver, Replied, Cached;
    LiveSlots(s, i);
    ReplyToGood(s, s.removed, i, a, cfg);
    ReplyEffect(s, i, a, cfg);
    var q, p := s.queries[i], ReplyTo(s, i, a, cfg).queries[i];
    if q.reply == NoReply {
      RepliedAttends(q, p, a);
    }
    HookAttends(s, i, ReplyTo(s, i, a, cfg));
  }

  lemma RepliedAttends(q: Query, p: Query, a: Answer)
    requires Replied(q, p, a)
    ensures Attended(q) ==> Attended(p)
  {
  }

  lemma FailAttends(s: State, i: nat, server: Option<(string, nat)>, reply: Reply)
    requires Inv(s) && IsLive(s, i) && AllAttended(s)
    ensures Fetchable(s, i) && AllAttended(FailWith(s, i, server, reply))
  {
    hide Inv, InvFrom, Good, FailWith, AllAttended, Fetchable, TakesOver;
    LiveSlots(s, i);
    FailGood(s, s.removed, i, server, reply);
    FailEffect(s, i, server, reply);
    HookAttends(s, i, FailWith(s, i, server, reply));
  }

  lemma DropAttends(s: State, i: nat)
    requires Inv(s) && IsLive(s, i) && AllAttended(s)
    ensures Fetchable(s, i) && AllAttended(DropReply(s, i))
  {
    hide Inv, InvFrom, Good, DropReply, AllAttended, Fetchable;
    LiveSlots(s, i);
    DropGood(s, s.removed, i);
    DropEffect(s, i);
    HookAttends(s, i, DropReply(s, i));
  }

  lemma HeaderAttends(s: State, i: nat, st: Status, cfg: Config)
    requires Inv(s) && IsLive(s, i) && AllAttended(s) && IsBlocked(st)
    ensures Fetchable(s, i) && AllAttended(BlockedByHeader(s, i, st, cfg))
  {
    hide Inv, InvFrom, Good, BlockedByHeader, AllAttended, Fetchable;
    LiveSlots(s, i);
    BlockedByHeaderGood(s, s.removed, i, st, cfg);
    HeaderEffect(s, i, st, cfg);
    HookAttends(s, i, BlockedByHeader(s, i, st, cfg));
  }

  lemma AddressAttends(s: State, i: nat, st: Status, cfg: Config)
    requires Inv(s) && IsLive(s, i) && AllAttended(s) && IsBlocked(st)
    ensures Fetchable(s, i) && AllAttended(QueryBlocked(s, i, st, cfg))
  {
    hide Inv, InvFrom, Good, QueryBlocked, AllAttended, Fetchable;
    LiveSlots(s, i);
    BlockedGood(s, s.removed, i, st, cfg);
    BlockScreens(s, i, st, cfg);
    HookAttends(s, i, QueryBlocked(s, i, st, cfg));
  }

  lemma RetryAttends(s: State, i: nat, ip: string, port: nat, dnssec: bool, cfg: Config)
    requires Inv(s) && IsLive(s, i) && AllAttended(s)
    ensures Fetchable(s, i) && AllAttended(Retrying(s, i, ip, port, dnssec, cfg))
  {
    hide Inv, InvFrom, Good, Retrying, AllAttended, Fetchable, Serves;
    LiveSlots(s, i);
    RetryGood(s, s.removed, i, ip, port, dnssec, cfg);
    RetryEffect(s, i, ip, port, dnssec, cfg);
    HookAttends(s, i, Retrying(s, i, ip, port, dnssec, cfg));
  }

  lemma WaitAttends(s: State, i: nat, cfg: Config)
    requires Inv(s) && IsLive(s, i) && AllAttended(s)
    ensures Fetchable(s, i) && |s.slots| == OVERTIME_SLOTS && AllAttended(SetStatus(s, i, InProgress, cfg))
  {
    hide Inv, InvFrom, Good, SetStatus, AllAttended, Fetchable;
    LiveSlots(s, i);
    StatusGood(s, s.removed, i, InProgress, cfg);
    StatusAt(s, i, InProgress, cfg);
    HookAttends(s, i, SetStatus(s, i, InProgress, cfg));
  }

  lemma MergeAttends(s: State, src: nat, i: nat, cfg: Config)
    requires Inv(s) && IsLive(s, src) && IsLive(s, i) && AllAttended(s)
    ensures Fetchable(s, src) && Fetchable(s, i) && AllAttended(Duplicate(s, src, i, cfg))
  {
    hide Inv, InvFrom, Good, Duplicate, AllAttended, Fetchable;
    LiveSlots(s, src);
    LiveSlots(s, i);
    DuplicateGood(s, s.removed, src, i, cfg);
    DuplicateEffect(s, src, i, cfg);
    HookAttends(s, i, Duplicate(s, src, i, cfg));
  }

  lemma ArriveAttends(s: State, e: Event, cfg: Config)
    requires Inv(s) && Enabled(s, e) && AllAttended(s) && e.Arrive?
    ensures AllAttended(Step(s, e, cfg))
  {
    hide Inv, Step, Enabled, AllAttended;
    ArriveEffect(s, e, cfg);
    ArriveMarks(s, e, cfg);
    GrownAttends(s, Step(s, e, cfg));
  }

  lemma GrownAttends(s: State, r: State)
    requires AllAttended(s) && r.removed == s.removed && |s.queries| <= |r.queries| && r.queries[..|s.queries|] == s.queries
    requires forall i :: |s.queries| <= i < |r.queries| ==> Attended(r.queries[i])
    ensures AllAttended(r)
  {
    forall i | IsLive(r, i)
      ensures Attended(r.queries[i])
    {
      if i < |s.queries| {
        assert r.queries[i] == r.queries[..|s.queries|][i] && IsLive(s, i);
      }
    }
  }

  lemma ArriveMarks(s: State, e: Event, cfg: Config)
    requires e.Arrive?
    ensures Step(s, e, cfg).removed == s.removed
  {
    hide Enrolled, FindId, Created, FreshQuery, GetId;
  }

  lemma CollectorAttends(s: State, e: Event, cfg: Config)
    requires Inv(s) && Enabled(s, e) && AllAttended(s) && (e.Collect? || e.Finish? || e.Flush?)
    ensures AllAttended(Step(s, e, cfg))
  {
    hide Inv, InvFrom, GcBegin, GcEnd, KeepsUsed, Frees;
    match e {
      case Collect(mintime) =>
        NoneRetracted(s);
        BeginEffect(s, mintime, cfg);
        SuffixAttends(s, GcBegin(s, mintime, cfg), GcBegin(s, mintime, cfg).removed);
      case Finish(now) =>
        FinishEffect(s, now);
        FinishAttends(s, GcEnd(s, now));
      case Flush(time) =>
        var t := GcBegin(s, time, cfg);
        NoneRetracted(s);
        BeginEffect(s, time, cfg);
        GcBeginKeeps(s, time, cfg);
        SuffixAttends(s, t, t.removed);
        FinishEffect(t, time as real);
        FinishAttends(t, GcEnd(t, time as real));
    }
  }

  lemma NoneRetracted(s: State)
    requires Inv(s) && s.gc.None?
    ensures s.removed == 0
  {
    hide InvFrom;
  }

  lemma SuffixAttends(s: State, t: State, n: nat)
    requires AllAttended(s) && s.removed <= n <= |s.queries| == |t.queries| && t.removed == n && t.queries[n..] == s.queries[n..]
    ensures AllAttended(t)
  {
    forall i | IsLive(t, i)
      ensures Attended(t.queries[i])
    {
      assert t.queries[i] == t.queries[n..][i - n] == s.queries[i];
    }
  }

  lemma FinishAttends(s: State, r: State)
    requires AllAttended(s) && s.removed <= |s.queries| && r.queries == s.queries[s.removed..] && r.removed == 0
    ensures AllAttended(r)
  {
    forall i | IsLive(r, i)
      ensures Attended(r.queries[i])
    {
      assert r.queries[i] == s.queries[s.removed + i] && IsLive(s, s.removed + i);
    }
  }

  lemma StepAttends(s: State, e: Event, cfg: Config)
    requires Inv(s) && Enabled(s, e) && Genuine(e) && AllAttended(s)
    ensures AllAttended(Step(s, e, cfg))
  {
    hide Inv, AllAttended;
    if e.Collect? || e.Finish? || e.Flush? {
      CollectorAttends(s, e, cfg);
    } else if e.Arrive? {
      ArriveAttends(s, e, cfg);
    } else if e.ReloadLists? || e.RetryUnknown? {
      SameAttends(s, e, cfg);
    } else {
      QueryAttends(s, e, cfg);
    }
  }

  lemma SameAttends(s: State, e: Event, cfg: Config)
    requires AllAttended(s) && (e.ReloadLists? || e.RetryUnknown?)
    ensures AllAttended(Step(s, e, cfg))
  {
    hide UpstreamIndex;
  }

  lemma QueryAttends(s: State, e: Event, cfg: Config)
    requires Inv(s) && Enabled(s, e) && Genuine(e) && AllAttended(s)
    requires !e.Collect? && !e.Finish? && !e.Flush? && !e.Arrive? && !e.ReloadLists? && !e.RetryUnknown?
    ensures AllAttended(Step(s, e, cfg))
  {
    hide Enrol, Enrolled, NewQuery, Filter, Cname, Duplicate, Reload, GcBegin, GcEnd, IsBlocked;
    hide Inv, InvFrom, ForwardTo, ReplyTo, FailWith, BlockedByHeader, QueryBlocked, Retrying, SetStatus, DropReply, Fetchable, AllAttended;
    match e {
      case Check(i, lists) => CheckAttends(s, i, lists, cfg);
      case Hop(_, _, _, _, _) => HopAttends(s, e, cfg);
      case Merge(src, i) => MergeAttends(s, src, i, cfg);
      case Forward(i, ip, port) => ForwardAttends(s, i, ip, port, cfg);
      case Respond(i, a) => RespondAttends(s, i, a, cfg);
      case Fail(i, server, reply) => FailAttends(s, i, server, reply);
      case Drop(i) => DropAttends(s, i);
      case BlockByHeader(i, st) => HeaderAttends(s, i, st, cfg);
      case BlockByAddress(i, st) => AddressAttends(s, i, st, cfg);
      case Retry(i, ip, port, dnssec) => RetryAttends(s, i, ip, port, dnssec, cfg);
      case Wait(i) => WaitAttends(s, i, cfg);
    }
  }

  // ---- Whole runs ----

  lemma {:induction false} RunsAttend(start: nat, events: seq<Event>, cfg: Config)
    requires start >= 86400 && Orderly(start, events, cfg) && forall k :: 0 <= k < |events| ==> Genuine(events[k])
    ensures AllAttended(Exec(start, events, cfg))
    decreases |events|
  {
    if events != [] {
      var n := |events| - 1;
      assert forall k :: 0 <= k < n ==> events[..n][..k] == events[..k];
      RunsAttend(start, events[..n], cfg);
      RunsKeepInv(start, events[..n], cfg);
      hide Inv, Step, Enabled, AllAttended, Genuine;
      StepAttends(Exec(start, events[..n], cfg), events[n], cfg);
    }
  }

  // ---- The servers' counts together ----

  function ServerTallies(n: nat): (ks: seq<Tally>)
    ensures |ks| == n && forall u :: 0 <= u < n ==> ks[u] == OfUpstream(u)
  {
    seq(n, u => OfUpstream(u))
  }

  lemma {:induction false} HitSumPositive(q: Query, ks: seq<Tally>)
    ensures HitSum(q, ks) >= 0
  {
    if ks != [] {
      HitSumPositive(q, ks[1..]);
    }
  }

  // A tally covered query by query by the others counts no more than they do together
  lemma {:induction false} CountCovered(qs: seq<Query>, ks: seq<Tally>, k: Tally)
    requires forall i :: 0 <= i < |qs| ==> Hit(qs[i], k) <= HitSum(qs[i], ks)
    ensures Count(qs, k) <= CountSum(qs, ks)
  {
    if qs == [] {
      CountSumEmpty(ks);
    } else {
      assert forall i :: 0 <= i < |qs[1..]| ==> qs[1..][i] == qs[i + 1];
      CountCovered(qs[1..], ks, k);
      CountSumCons(qs[0], qs[1..], ks);
      assert [qs[0]] + qs[1..] == qs;
    }
  }

  lemma ServedOnce(q: Query, n: nat)
    requires Attended(q) && (q.counted ==> 0 <= q.upstreamID < n)
    ensures Hit(q, OfStatus(Forwarded)) <= HitSum(q, ServerTallies(n))
  {
    HitSumPositive(q, ServerTallies(n));
    if q.counted {
      HitSumOne(q, ServerTallies(n), q.upstreamID);
    }
  }

  lemma ServersCover(s: State)
    requires Shaped(s) && Conserved(s, s.removed) && QueriesOk(s) && AllAttended(s)
    ensures Get(s.status, Forwarded) <= TalliedSum(s, ServerTallies(|s.upstreams|))
  {
    var live, ks := s.queries[s.removed..], ServerTallies(|s.upstreams|);
    InvCountsUpstreams(s);
    forall i | 0 <= i < |live|
      ensures Hit(live[i], OfStatus(Forwarded)) <= HitSum(live[i], ks)
    {
      assert IsLive(s, s.removed + i) && live[i] == s.queries[s.removed + i];
      ServedOnce(live[i], |s.upstreams|);
    }
    assert Tallied(s, OfStatus(Forwarded)) == Count(live, OfStatus(Forwarded));
    hide Aligned, Count, CountSum, HitSum, Conserved, QueriesOk, AllAttended;
    TalliedSumCounts(s, s.removed, ks);
    CountCovered(live, ks, OfStatus(Forwarded));
  }

  /** In every run every live query recorded as forwarded is counted at a server that is in the
      table, that server counts at least one query, and the servers together count at least as
      many queries as are recorded as forwarded. */
  lemma RunsServeForwards(start: nat, events: seq<Event>, cfg: Config)
    requires start >= 86400 && Orderly(start, events, cfg) && forall k :: 0 <= k < |events| ==> Genuine(events[k])
    ensures var s := Exec(start, events, cfg);
            && Shaped(s)
            && (forall i :: IsLive(s, i) && s.queries[i].status == Forwarded ==>
                 && s.queries[i].counted && 0 <= s.queries[i].upstreamID < |s.upstreams|
                 && s.upstreams[s.queries[i].upstreamID].count > 0)
            && Get(s.status, Forwarded) <= TalliedSum(s, ServerTallies(|s.upstreams|))
  {
    hide *;
    RunsKeepInv(start, events, cfg);
    RunsAttend(start, events, cfg);
    InvServes(Exec(start, events, cfg));
  }

  lemma InvServes(s: State)
    requires Inv(s) && AllAttended(s)
    ensures Shaped(s)
    ensures forall i :: IsLive(s, i) && s.queries[i].status == Forwarded ==>
              && s.queries[i].counted && 0 <= s.queries[i].upstreamID < |s.upstreams|
              && s.upstreams[s.queries[i].upstreamID].count > 0
    ensures Get(s.status, Forwarded) <= TalliedSum(s, ServerTallies(|s.upstreams|))
  {
    hide Tables, CachesOk, Ordered, CnameCovered, Aligned, Count, Conserved, QueriesOk, AllAttended, TalliedSum, Get;
    ServersCover(s);
    InvCountsUpstreams(s);
    forall i | IsLive(s, i) && s.queries[i].status == Forwarded
      ensures s.queries[i].counted && 0 <= s.queries[i].upstreamID < |s.upstreams| && s.upstreams[s.queries[i].upstreamID].count > 0
    {
      LiveAttended(s, i);
      assert Live(s)[i - s.removed] == s.queries[i];
      CountPositive(Live(s), i - s.removed, OfUpstream(s.queries[i].upstreamID));
    }
  }
}
