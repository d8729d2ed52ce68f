// What the DNS cache records remember about blocks upstream servers reported: who is answered
// from memory, with what, and until when (src/datastructure.c:1298-1330,
// src/dnsmasq_interface.c:1736-1945).
module Remembering {
  import opened Records
  import opened Interning
  import opened OverTime
  import opened Blocking
  import opened Hashing
  import opened Store
  import opened Conservation
  import opened Collection
  import opened Hooks
  import opened Runs
  import opened Epoch
  import opened Effects
  import opened Recycling

  ghost function VerdictOf(s: State, k: nat): Verdict
    requires k in s.caches.live
  {
    s.caches.live[k].data.verdict
  }

  // ---- One check ----

  /** The check of an arrived query whose record remembers something: the query is not looked up
      in the lists. A block is repeated with its status, and the answer is to block it, except for
      a known address, which upstream is asked for again. Anything else lets the query go on,
      allowed if the record says so. The record stays as it is. */
  lemma RememberedCheck(s: State, i: nat, lists: Lists, cfg: Config)
    requires Checkable(s, i) && cfg.enabled
    requires Current(VerdictOf(s, s.queries[i].cacheID), s.queries[i].timestamp, cfg.ttl).blocking != Unknown
    ensures var q, r := s.queries[i], CheckOf(s, i, lists, cfg);
            var v := Current(VerdictOf(s, q.cacheID), q.timestamp, cfg.ttl);
            && i < |r.0.queries| && q.cacheID in r.0.caches.live && VerdictOf(r.0, q.cacheID) == v
            && var p := r.0.queries[i];
               if IsBlocked(v.blocking) && v.blocking != DbBusy then
                 && r.1 == (v.blocking != ExternalIp) && p.status == v.blocking && p.reply == q.reply && !p.allowed
                 && (IsCname(v.blocking) ==> p.cname == s.caches.live[q.cacheID].data.cname)
                 && (!IsCname(v.blocking) ==> p.cname == q.cname)
               else !r.1 && p == q.(allowed := v.allowed)
  {
    hide Current, ApplyVerdict;
    CheckIs(s, i, lists, cfg);
    hide CheckOf;
    VerdictEffect(Refreshed(s, i, cfg), i, cfg);
  }

  // What a remembered verdict makes of a query that has not been checked
  ghost predicate Applied(s: State, i: nat, r: (State, bool))
    requires LiveQuery(s, i)
  {
    var q, v := s.queries[i], VerdictOf(s, s.queries[i].cacheID);
    && i < |r.0.queries| && q.cacheID in r.0.caches.live && VerdictOf(r.0, q.cacheID) == v
    && var p := r.0.queries[i];
       if IsBlocked(v.blocking) && v.blocking != DbBusy then
         && r.1 == (v.blocking != ExternalIp) && p.status == v.blocking && p.reply == q.reply && !p.allowed
         && (IsCname(v.blocking) ==> p.cname == s.caches.live[q.cacheID].data.cname)
         && (!IsCname(v.blocking) ==> p.cname == q.cname)
       else !r.1 && p == q.(allowed := v.allowed)
  }

  lemma VerdictEffect(s: State, i: nat, cfg: Config)
    requires LiveQuery(s, i) && s.queries[i].status == Unknown && !s.queries[i].allowed
    requires VerdictOf(s, s.queries[i].cacheID).blocking != Unknown
    ensures Applied(s, i, ApplyVerdict(s, i, cfg))
  {
    var st := VerdictOf(s, s.queries[i].cacheID).blocking;
    if IsBlocked(st) && st != DbBusy {
      BlockedVerdict(s, i, cfg);
    } else {
      hide QueryBlocked, HoldCname;
    }
  }

  lemma BlockedVerdict(s: State, i: nat, cfg: Config)
    requires LiveQuery(s, i) && s.queries[i].status == Unknown && !s.queries[i].allowed
    requires var st := VerdictOf(s, s.queries[i].cacheID).blocking; IsBlocked(st) && st != DbBusy
    ensures Applied(s, i, ApplyVerdict(s, i, cfg))
  {
    hide QueryBlocked, Memorised, HoldCname;
    var q := s.queries[i];
    var v := VerdictOf(s, q.cacheID);
    MemorisedAgain(v, q.timestamp, cfg.ttl);
    BlockUnchecked(s, i, v.blocking, cfg);
    HoldOnly(QueryBlocked(s, i, v.blocking, cfg), i, s.caches.live[q.cacheID].data.cname);
  }

  lemma HoldOnly(s: State, i: nat, x: int)
    requires i < |s.queries|
    ensures var r := HoldCname(s, i, x);
            |r.queries| == |s.queries| && r.queries[i] == s.queries[i].(cname := x) && r.caches == s.caches
  {
  }

  /** The check of an arrived query whose record remembers nothing: the lists decide, available or
      not. Status, answer and allowed flag are theirs. The record remembers the list that blocked,
      or whether the name is allowed; while the database cannot be asked it remembers nothing. */
  lemma FreshCheck(s: State, i: nat, lists: Lists, cfg: Config)
    requires Checkable(s, i) && cfg.enabled
    requires Current(VerdictOf(s, s.queries[i].cacheID), s.queries[i].timestamp, cfg.ttl).blocking == Unknown
    ensures var q, r, d := s.queries[i], CheckOf(s, i, lists, cfg), ChainOf(s, i, lists, cfg);
            var v := Current(VerdictOf(s, q.cacheID), q.timestamp, cfg.ttl);
            && r.1 == d.block && i < |r.0.queries| && r.0.queries[i] == Ruled(q, d)
            && q.cacheID in r.0.caches.live
            && var w := VerdictOf(r.0, q.cacheID);
               if d.block then w == v.(blocking := if d.status == DbBusy then Unknown else d.status)
               else w == v.(allowed := if d.dbOkay then d.allowed else v.allowed)
  {
    hide Current, ApplyDecision;
    CheckIs(s, i, lists, cfg);
    var q, d := s.queries[i], ChainOf(s, i, lists, cfg);
    ChainBlocks(s, i, lists, cfg);
    hide CheckOf, ChainOf;
    DecisionRemembers(Refreshed(s, i, cfg), i, d, cfg);
  }

  lemma ChainBlocks(s: State, i: nat, lists: Lists, cfg: Config)
    requires Checkable(s, i)
    ensures var d := ChainOf(s, i, lists, cfg);
            d.block ==> IsBlocked(d.status) && !IsExternal(d.status)
  {
    var q := s.queries[i];
    DecideReason(lists, cfg, s.domains.live[q.domainID].key, s.clients.live[q.clientID].key, q.qtype, ChainOf(s, i, lists, cfg).status);
    hide Decide, Judging;
  }

  lemma DecisionRemembers(s: State, i: nat, d: Decision, cfg: Config)
    requires LiveQuery(s, i) && s.queries[i].status == Unknown && VerdictOf(s, s.queries[i].cacheID).blocking == Unknown
    requires d.block ==> IsBlocked(d.status) && !IsExternal(d.status)
    ensures var q, r, v := s.queries[i], ApplyDecision(s, i, d, cfg), VerdictOf(s, s.queries[i].cacheID);
            && r.1 == d.block && i < |r.0.queries| && r.0.queries[i] == Ruled(q, d)
            && q.cacheID in r.0.caches.live
            && var w := VerdictOf(r.0, q.cacheID);
               if d.block then w == v.(blocking := if d.status == DbBusy then Unknown else d.status)
               else w == v.(allowed := if d.dbOkay then d.allowed else v.allowed)
  {
    var k := s.queries[i].cacheID;
    var c := s.caches.live[k].data;
    var s1 := WithQuery(s, i, s.queries[i].(allowed := d.allowed));
    if d.block {
      var s2 := if d.status == SpecialDomain then WithCache(s1, k, c.(verdict := c.verdict.(blocking := SpecialDomain))) else s1;
      hide QueryBlocked;
      BlockUnchecked(s2, i, d.status, cfg);
    }
  }

  /** A reload forgets every status and every expiry, and nothing else about a record. */
  lemma ReloadForgets(s: State, k: nat)
    requires k in s.caches.live
    ensures var t := Reload(s);
            && t == s.(caches := t.caches, queries := t.queries) && t.caches.live.Keys == s.caches.live.Keys
            && t.caches.live[k] == s.caches.live[k].(data := s.caches.live[k].data.(
                 verdict := Verdict(Unknown, 0, VerdictOf(s, k).allowed)))
  {
  }

  /** So the lists decide every check after it. */
  lemma ReloadAsksLists(s: State, i: nat, lists: Lists, cfg: Config)
    requires Inv(s) && Unchecked(Reload(s), i) && cfg.enabled
    ensures var t := Reload(s);
            && Checkable(t, i)
            && CheckOf(t, i, lists, cfg).1 == ChainOf(t, i, lists, cfg).block
            && i < |CheckOf(t, i, lists, cfg).0.queries|
            && CheckOf(t, i, lists, cfg).0.queries[i] == Ruled(t.queries[i], ChainOf(t, i, lists, cfg))
  {
    var t := Reload(s);
    ReloadKeeps(s, s.removed);
    assert Inv(t) by {
      hide InvFrom;
    }
    hide Inv, InvFrom;
    InvCheckable(t, i);
    FreshCheck(t, i, lists, cfg);
  }

  // ---- A block is remembered ----

  // The second a record that has no expiry yet keeps a block to; an expiry once set stays
  function Until(v: Verdict, st: Status, at: real, ttl: nat): nat {
    if ttl > 0 && v.expires == 0 && v.blocking != st then ShmTime(at.Floor + ttl) else v.expires
  }

  // Among the records at most the verdict of record c differs
  ghost predicate OnlyRecord(s: State, r: State, c: nat) {
    && r.caches.live.Keys == s.caches.live.Keys
    && (forall d :: d in s.caches.live ==> r.caches.live[d].key == s.caches.live[d].key)
    && forall d :: d in s.caches.live && d != c ==> r.caches.live[d].data.verdict == s.caches.live[d].data.verdict
  }

  lemma OnlyTrans(s: State, r: State, t: State, c: nat)
    requires OnlyRecord(s, r, c) && OnlyRecord(r, t, c)
    ensures OnlyRecord(s, t, c)
  {
  }

  lemma OnlyFrom(s: State, m: State, r: State, c: nat)
    requires m.caches == s.caches && OnlyRecord(m, r, c)
    ensures OnlyRecord(s, r, c)
  {
  }

  lemma StatusRecords(s: State, i: nat, st: Status, cfg: Config)
    requires LiveQuery(s, i)
    ensures var r, c := SetStatus(s, i, st, cfg), s.queries[i].cacheID;
            && OnlyRecord(s, r, c)
            && (st != s.queries[i].status ==>
                 r.caches.live[c].data.verdict == Memorised(s.caches.live[c].data.verdict, st, s.queries[i].timestamp, cfg.ttl))
            && (Intermittent(st) || st == s.queries[i].status ==> r.caches.live[c].data.verdict == s.caches.live[c].data.verdict)
  {
    hide SetStatus, Memorised;
    if st == s.queries[i].status {
      SetStatusSame(s, i, cfg);
    } else {
      SetStatusVerdicts(s, i, st, cfg);
      KeyedAlike(s, i, st, cfg);
      MemorisedNot(s.caches.live[s.queries[i].cacheID].data.verdict, st, s.queries[i].timestamp, cfg.ttl);
    }
  }

  lemma MemorisedNot(v: Verdict, st: Status, at: real, ttl: nat)
    ensures Intermittent(st) ==> Memorised(v, st, at, ttl) == v
  {
  }

  lemma BlockRecords(s: State, i: nat, st: Status, cfg: Config)
    requires LiveQuery(s, i)
    ensures var r, c := QueryBlocked(s, i, st, cfg), s.queries[i].cacheID;
            && OnlyRecord(s, r, c)
            && (IsBlocked(s.queries[i].status) ==> r == s)
            && (!IsBlocked(s.queries[i].status) && IsBlocked(st) ==>
                 r.caches.live[c].data.verdict == Memorised(s.caches.live[c].data.verdict, st, s.queries[i].timestamp, cfg.ttl))
  {
    hide SetStatus, Memorised, IsBlocked, OnlyRecord;
    var c := s.queries[i].cacheID;
    NotForwarded();
    if s.queries[i].status == Forwarded && s.queries[i].counted {
      var m := HandBack(s, i);
      StatusRecords(m, i, st, cfg);
      OnlyFrom(s, m, SetStatus(m, i, st, cfg), c);
      OnlyKeys(s, SetStatus(m, i, st, cfg), c);
    } else if !IsBlocked(s.queries[i].status) {
      StatusRecords(s, i, st, cfg);
      OnlyKeys(s, SetStatus(s, i, st, cfg), c);
    } else {
      OnlySelf(s, c);
    }
  }

  lemma OnlySelf(s: State, c: nat)
    ensures OnlyRecord(s, s, c)
  {
  }

  lemma OnlyKeys(s: State, r: State, c: nat)
    requires OnlyRecord(s, r, c)
    ensures r.caches.live.Keys == s.caches.live.Keys
  {
  }

  lemma NotForwarded()
    ensures !IsBlocked(Forwarded)
  {
  }

  /** A block reported by an upstream server, of a query that is not blocked already, is remembered
      by the query's record with its status. The record expires `ttl` seconds after the query, if
      it did not expire before; a second such block does not extend that. No other record changes. */
  lemma BlockRemembered(s: State, i: nat, st: Status, cfg: Config)
    requires Inv(s) && IsLive(s, i) && IsExternal(st) && !IsBlocked(s.queries[i].status)
    ensures LiveQuery(s, i)
    ensures var q, r := s.queries[i], QueryBlocked(s, i, st, cfg);
            var v := VerdictOf(s, q.cacheID);
            && OnlyRecord(s, r, q.cacheID)
            && VerdictOf(r, q.cacheID) == Verdict(st, Until(v, st, q.timestamp, cfg.ttl), v.allowed)
  {
    hide InvFrom, Fetchable;
    LiveSlots(s, i);
    InvLiveQuery(s, i);
    hide Inv, QueryBlocked;
    BlockRecords(s, i, st, cfg);
    RememberedAs(VerdictOf(s, s.queries[i].cacheID), st, s.queries[i].timestamp, cfg.ttl);
  }

  lemma RememberedAs(v: Verdict, st: Status, at: real, ttl: nat)
    requires IsExternal(st)
    ensures Memorised(v, st, at, ttl) == Verdict(st, Until(v, st, at, ttl), v.allowed)
  {
  }

  // ---- Which record a hook touches ----

  lemma CountOnly(s: State, i: nat, u: nat)
    requires i < |s.queries|
    ensures var r := CountAt(s, i, u);
            && r == s.(upstreams := r.upstreams, queries := r.queries) && |r.queries| == |s.queries|
            && r.queries[i].cacheID == s.queries[i].cacheID && r.queries[i].timestamp == s.queries[i].timestamp
  {
  }

  lemma ForwardRecords(s: State, i: nat, ip: string, port: nat, cfg: Config)
    requires LiveQuery(s, i)
    ensures var r := ForwardTo(s, i, ip, port, cfg);
            OnlyRecord(s, r, s.queries[i].cacheID) && (s.queries[i].complete ==> r == s)
  {
    hide SetStatus, UpstreamIndex, FindUpstream, CountAt, Serves, CountOf;
    var u := UpstreamIndex(s.upstreams, ip, port);
    FindUpstreamServes(s, ip, port);
    CountOnly(FindUpstream(s, ip, port), i, u);
    var s1 := CountAt(FindUpstream(s, ip, port), i, u);
    StatusRecords(if s.queries[i].status == Cache then Unanswered(s1, i) else Completed(s1, i), i, Forwarded, cfg);
  }

  // Where the status is the old one, no record has changed
  ghost predicate ReplyTouches(s: State, r: State, i: nat) {
    && i < |s.queries| && i < |r.queries| && OnlyRecord(s, r, s.queries[i].cacheID)
    && (r.queries[i].status == s.queries[i].status ==> r.caches == s.caches)
  }

  lemma StatusTouches(s: State, i: nat, st: Status, cfg: Config)
    requires LiveQuery(s, i)
    ensures ReplyTouches(s, SetStatus(s, i, st, cfg), i)
  {
    hide SetStatus;
    StatusRecords(s, i, st, cfg);
    StatusAt(s, i, st, cfg);
    if st == s.queries[i].status {
      SetStatusSame(s, i, cfg);
    }
  }

  // Replies and complete flags touch no record
  lemma TouchesOn(s: State, m: State, r: State, i: nat)
    requires ReplyTouches(s, m, i) && r.caches == m.caches && i < |r.queries| && r.queries[i].status == m.queries[i].status
    ensures ReplyTouches(s, r, i)
  {
  }

  lemma FirstReplyTouches(s: State, i: nat, a: Answer, cfg: Config)
    requires LiveQuery(s, i)
    ensures ReplyTouches(s, FirstReply(s, i, a, cfg), i)
  {
    hide SetStatus, SetReply, ReplyTouches, IsBlocked, Cached;
    var r := FirstReply(s, i, a, cfg);
    var qs := if a.stale then CacheStale else Cache;
    var m := SetStatus(s, i, qs, cfg);
    StatusAt(s, i, qs, cfg);
    StatusTouches(s, i, qs, cfg);
    SelfTouches(s, i);
    ReplyAndComplete(s, i, a.reply);
    ReplyTables(s, i, a.reply);
    ReplyAndComplete(m, i, a.reply);
    ReplyTables(m, i, a.reply);
    var t := SetReply(s, i, a.reply);
    RcodeTouches(s, i, a.reply, cfg);
    StatusAt(t, i, Cache, cfg);
    var q := s.queries[i];
    var cached, blocked := Cached(a, q.qtype), IsBlocked(q.status);
    if (cached && !blocked) || (!cached && a.config && a.exact && !q.complete) {
      TouchesOn(s, m, r, i);
    } else if !cached && !a.exact && !a.reverse && q.qtype != Ptr && a.rcode && !blocked {
      TouchesOn(s, SetStatus(t, i, Cache, cfg), r, i);
    } else {
      TouchesOn(s, s, r, i);
    }
  }

  lemma SelfTouches(s: State, i: nat)
    requires i < |s.queries|
    ensures ReplyTouches(s, s, i)
  {
  }

  lemma RcodeTouches(s: State, i: nat, x: Reply, cfg: Config)
    requires LiveQuery(s, i)
    ensures var r := SetStatus(SetReply(s, i, x), i, Cache, cfg); ReplyTouches(s, r, i)
  {
    hide SetStatus;
    StatusTouches(SetReply(s, i, x), i, Cache, cfg);
  }

  lemma ReplyRecords(s: State, i: nat, a: Answer, cfg: Config)
    requires LiveQuery(s, i)
    ensures ReplyTouches(s, ReplyTo(s, i, a, cfg), i)
  {
    hide FirstReply, ReplyTouches, UpdateUpstream, Cached;
    var s1 := if Cached(a, s.queries[i].qtype) then s else UpdateUpstream(s, i, a.server);
    UpdateTouches(s, i, a.server);
    var s2 := Answered(s1, i);
    FirstReplyTouches(s2, i, a, cfg);
    if s.queries[i].reply == NoReply {
      FromAnswered(s, s2, ReplyTo(s, i, a, cfg), i);
    } else {
      SelfTouches(s, i);
      TouchesOn(s, s, s2, i);
    }
  }

  lemma UpdateTouches(s: State, i: nat, server: Option<(string, nat)>)
    requires i < |s.queries|
    ensures var r := UpdateUpstream(s, i, server);
            && |r.queries| == |s.queries| && r.caches == s.caches && r.slots == s.slots
            && r.queries[i] == s.queries[i].(upstreamID := r.queries[i].upstreamID)
  {
    if server.Some? {
      hide UpstreamIndex, FindUpstream, BumpUpstream, Serves, CountOf;
      FindUpstreamServes(s, server.value.0, server.value.1);
    }
  }

  lemma FromAnswered(s: State, m: State, r: State, i: nat)
    requires i < |s.queries| && i < |m.queries| && m.caches == s.caches
    requires m.queries[i].status == s.queries[i].status && m.queries[i].cacheID == s.queries[i].cacheID
    requires ReplyTouches(m, r, i)
    ensures ReplyTouches(s, r, i)
  {
  }

  lemma VerdictRecords(s: State, i: nat, cfg: Config)
    requires LiveQuery(s, i)
    ensures OnlyRecord(s, ApplyVerdict(s, i, cfg).0, s.queries[i].cacheID)
  {
    hide QueryBlocked;
    BlockRecords(s, i, s.caches.live[s.queries[i].cacheID].data.verdict.blocking, cfg);
  }

  lemma DecisionRecords(s: State, i: nat, d: Decision, cfg: Config)
    requires LiveQuery(s, i)
    ensures OnlyRecord(s, ApplyDecision(s, i, d, cfg).0, s.queries[i].cacheID)
  {
    hide QueryBlocked;
    var k := s.queries[i].cacheID;
    var c := s.caches.live[k].data;
    var s1 := WithQuery(s, i, s.queries[i].(allowed := d.allowed));
    var special := WithCache(s1, k, c.(verdict := c.verdict.(blocking := SpecialDomain)));
    BlockRecords(if d.status == SpecialDomain then special else s1, i, d.status, cfg);
  }

  lemma CheckRecords(s: State, i: nat, name: string, domainID: nat, lists: Lists, cfg: Config)
    requires LiveQuery(s, i) && s.queries[i].clientID in s.clients.live
    ensures OnlyRecord(s, CheckBlocking(s, i, name, domainID, lists, cfg).0, s.queries[i].cacheID)
  {
    hide ApplyDecision, ApplyVerdict, Decide, Current;
    var q := s.queries[i];
    var c := s.caches.live[q.cacheID].data;
    var s1 := WithCache(s, q.cacheID, c.(verdict := Current(c.verdict, q.timestamp, cfg.ttl)));
    VerdictRecords(s1, i, cfg);
    DecisionRecords(s1, i, Decide(lists, cfg, name, s.clients.live[q.clientID].key, q.qtype, false), cfg);
  }

  lemma TargetRecords(s: State, i: nat, x: int, reply: Reply, cfg: Config)
    requires LiveQuery(s, i)
    ensures OnlyRecord(s, BlockedByCname(s, i, x, reply, cfg), s.queries[i].cacheID)
  {
    hide SetStatus, CnameOf, HoldCname, CacheHold, OnlyRecord;
    var c := s.queries[i].cacheID;
    HoldRecords(s, i, x, reply);
    var s1 := HoldCname(SetReply(s, i, reply), i, x);
    CacheHoldRecords(s1, c, x);
    var s2 := CacheHold(s1, c, x);
    OnlyFrom(s, s1, s2, c);
    StatusRecords(s2, i, CnameOf(s2.queries[i].status), cfg);
    OnlyTrans(s, s2, SetStatus(s2, i, CnameOf(s2.queries[i].status), cfg), c);
  }

  lemma HoldRecords(s: State, i: nat, x: int, reply: Reply)
    requires i < |s.queries|
    ensures var r := HoldCname(SetReply(s, i, reply), i, x);
            r.caches == s.caches && r.slots == s.slots && |r.queries| == |s.queries| && r.queries[i].cacheID == s.queries[i].cacheID
  {
  }

  lemma CacheHoldRecords(s: State, c: nat, x: int)
    requires c in s.caches.live
    ensures var r := CacheHold(s, c, x);
            OnlyRecord(s, r, c) && r.queries == s.queries && r.slots == s.slots && c in r.caches.live
  {
    hide BumpCname, SameDomains, Refs;
    var data := s.caches.live[c].data;
    var s1 := BumpCname(s, data.cname, -1);
    BumpEffect(s, data.cname, -1);
    BumpEffect(WithCache(s1, c, data.(cname := x)), x, 1);
  }

  lemma HopRecords(s: State, i: nat, child: string, now: real, reply: Reply, lists: Lists, cfg: Config)
    requires LiveQuery(s, i) && s.queries[i].clientID in s.clients.live
    ensures OnlyRecord(s, Cname(s, i, child, now, reply, lists, cfg).0, s.queries[i].cacheID)
  {
    hide WithChild, DomainId, CheckBlocking, BlockedByCname, OnlyRecord;
    var x, c := DomainId(s, child), s.queries[i].cacheID;
    var s2 := WithChild(s, child, now);
    ChildEffect(s, child, now);
    CheckRecords(s2, i, child, x, lists, cfg);
    var b := CheckBlocking(s2, i, child, x, lists, cfg);
    OnlyFrom(s, s2, b.0, c);
    if b.1 && i < |b.0.queries| && |b.0.slots| == OVERTIME_SLOTS && b.0.queries[i].cacheID in b.0.caches.live {
      CheckSame(s2, i, child, x, lists, cfg);
      TargetRecords(b.0, i, x, reply, cfg);
      OnlyTrans(s, b.0, BlockedByCname(b.0, i, x, reply, cfg), c);
    }
  }

  // A check moves no query to another record
  lemma CheckSame(s: State, i: nat, name: string, domainID: nat, lists: Lists, cfg: Config)
    requires LiveQuery(s, i) && s.queries[i].clientID in s.clients.live
    ensures var r := CheckBlocking(s, i, name, domainID, lists, cfg).0;
            i < |r.queries| ==> r.queries[i].cacheID == s.queries[i].cacheID
  {
    hide Decide, Current, SetStatus, IsBlocked;
    var q := s.queries[i];
    var c := s.caches.live[q.cacheID].data;
    var s1 := WithCache(s, q.cacheID, c.(verdict := Current(c.verdict, q.timestamp, cfg.ttl)));
    BlockSame(s1, i, Current(c.verdict, q.timestamp, cfg.ttl).blocking, cfg);
    var d := Decide(lists, cfg, name, s.clients.live[q.clientID].key, q.qtype, false);
    var s2 := WithQuery(s1, i, q.(allowed := d.allowed));
    BlockSame(s2, i, d.status, cfg);
    var c1 := s1.caches.live[q.cacheID].data;
    BlockSame(WithCache(s2, q.cacheID, c1.(verdict := c1.verdict.(blocking := SpecialDomain))), i, d.status, cfg);
    hide QueryBlocked;
  }

  lemma BlockSame(s: State, i: nat, st: Status, cfg: Config)
    requires |s.slots| == OVERTIME_SLOTS && i < |s.queries|
    ensures var r := QueryBlocked(s, i, st, cfg); |r.queries| == |s.queries| && r.queries[i].cacheID == s.queries[i].cacheID
  {
    hide QueryBlocked;
    if IsBlocked(s.queries[i].status) {
      BlockedAgain(s, i, st, cfg);
    } else {
      BlockAt(s, i, st, cfg);
    }
  }

  lemma DuplicateRecords(s: State, src: nat, i: nat, cfg: Config)
    requires LiveQuery(s, i) && src < |s.queries|
    ensures OnlyRecord(s, Duplicate(s, src, i, cfg), s.queries[i].cacheID)
  {
    hide SetStatus;
    var q, source := s.queries[i], s.queries[src];
    var s1 := s.(reply := Bump(Bump(s.reply, q.reply, -1), source.reply, 1),
                 queries := s.queries[i := q.(reply := source.reply, complete := true)]);
    StatusRecords(HoldCname(s1, i, source.cname), i, source.status, cfg);
  }

  // ---- Events that leave a record alone ----

  // Record k is still there, with its key and its verdict
  ghost predicate SameAt(s: State, r: State, k: nat) {
    k in s.caches.live && k in r.caches.live && SameRecord(s.caches.live[k], r.caches.live[k])
  }

  // An answer that does not set the status of the query
  predicate KeepsStatus(q: Query, a: Answer) {
    || q.reply != NoReply
    || (if Cached(a, q.qtype) then IsBlocked(q.status)
        else if a.exact then !a.config || q.complete
        else a.reverse || q.qtype == Ptr || !a.rcode || IsBlocked(q.status))
  }

  // A check of a query that is answered from record k
  ghost predicate AnswersFrom(s: State, i: nat, k: nat, cfg: Config) {
    && Unchecked(s, i) && s.queries[i].cacheID == k && k in s.caches.live
    && IsExternal(VerdictOf(s, k).blocking)
    && Current(VerdictOf(s, k), s.queries[i].timestamp, cfg.ttl) == VerdictOf(s, k)
  }

  /** The event sets no status that record k would remember, reloads no lists and does not recycle
      the record. Checks that are answered from the record are such events. */
  ghost predicate Spares(s: State, e: Event, k: nat, cfg: Config) {
    Enabled(s, e) &&
    match e
    case Arrive(_, _, _, _, _, _) => true
    case Check(i, _) => s.queries[i].cacheID != k || AnswersFrom(s, i, k, cfg)
    case Hop(i, _, _, _, _) => s.queries[i].cacheID != k
    case Forward(i, _, _) => s.queries[i].cacheID != k || s.queries[i].complete
    case Respond(i, a) => s.queries[i].cacheID != k || KeepsStatus(s.queries[i], a)
    case BlockByHeader(i, _) => s.queries[i].cacheID != k || IsBlocked(s.queries[i].status)
    case BlockByAddress(i, _) => s.queries[i].cacheID != k || IsBlocked(s.queries[i].status)
    case Merge(_, i) => s.queries[i].cacheID != k
    case ReloadLists => false
    case Finish(_) => exists j :: IsLive(s, j) && s.queries[j].cacheID == k
    case Flush(t) => exists j :: IsLive(s, j) && s.queries[j].cacheID == k && s.queries[j].timestamp > t as real
    case _ => true
  }

  lemma OtherRecord(s: State, r: State, c: nat, k: nat)
    requires OnlyRecord(s, r, c) && k in s.caches.live && c != k
    ensures SameAt(s, r, k)
  {
  }

  lemma SameCaches(s: State, r: State, k: nat)
    requires r.caches == s.caches && k in s.caches.live
    ensures SameAt(s, r, k)
  {
  }

  lemma CheckSpares(s: State, i: nat, lists: Lists, k: nat, cfg: Config)
    requires Inv(s) && IsLive(s, i) && k in s.caches.live
    requires s.queries[i].cacheID != k || AnswersFrom(s, i, k, cfg)
    ensures Fetchable(s, i) && SameAt(s, Filter(s, i, lists, cfg).0, k)
  {
    hide InvFrom, InWindow, Aligned, CheckBlocking, OnlyRecord, Current;
    LiveSlots(s, i);
    InvLiveQuery(s, i);
    var q := s.queries[i];
    CheckRecords(s, i, s.domains.live[q.domainID].key, q.domainID, lists, cfg);
    var r := CheckBlocking(s, i, s.domains.live[q.domainID].key, q.domainID, lists, cfg);
    assert Filter(s, i, lists, cfg).0.caches == r.0.caches;
    if q.cacheID != k {
      OtherRecord(s, r.0, q.cacheID, k);
    } else {
      AnsweredSame(s, i, lists, k, cfg);
    }
  }

  lemma AnsweredSame(s: State, i: nat, lists: Lists, k: nat, cfg: Config)
    requires Inv(s) && AnswersFrom(s, i, k, cfg)
    ensures Checkable(s, i) && SameAt(s, CheckOf(s, i, lists, cfg).0, k)
  {
    hide InvFrom, Inv, Current, Fetchable;
    InvCheckable(s, i);
    if cfg.enabled {
      RememberedCheck(s, i, lists, cfg);
      CheckedKey(s, i, lists, k, cfg);
    } else {
      SameCaches(s, CheckOf(s, i, lists, cfg).0, k);
    }
  }

  lemma CheckedKey(s: State, i: nat, lists: Lists, k: nat, cfg: Config)
    requires Checkable(s, i) && k in s.caches.live
    ensures k in CheckOf(s, i, lists, cfg).0.caches.live && CheckOf(s, i, lists, cfg).0.caches.live[k].key == s.caches.live[k].key
  {
    hide CheckBlocking;
    CheckRecords(s, i, s.domains.live[s.queries[i].domainID].key, s.queries[i].domainID, lists, cfg);
  }

  lemma HopSpares(s: State, e: Event, k: nat, cfg: Config)
    requires Inv(s) && e.Hop? && IsLive(s, e.i) && k in s.caches.live && s.queries[e.i].cacheID != k
    ensures Fetchable(s, e.i) && SameAt(s, Cname(s, e.i, e.child, e.now, e.reply, e.lists, cfg).0, k)
  {
    hide InvFrom, InWindow, Aligned, Cname, OnlyRecord;
    LiveSlots(s, e.i);
    InvLiveQuery(s, e.i);
    HopRecords(s, e.i, e.child, e.now, e.reply, e.lists, cfg);
    OtherRecord(s, Cname(s, e.i, e.child, e.now, e.reply, e.lists, cfg).0, s.queries[e.i].cacheID, k);
  }

  lemma ForwardSpares(s: State, i: nat, ip: string, port: nat, k: nat, cfg: Config)
    requires Inv(s) && IsLive(s, i) && k in s.caches.live && (s.queries[i].cacheID != k || s.queries[i].complete)
    ensures Fetchable(s, i) && SameAt(s, ForwardTo(s, i, ip, port, cfg), k)
  {
    hide InvFrom, Fetchable, ForwardTo, OnlyRecord;
    LiveSlots(s, i);
    InvLiveQuery(s, i);
    ForwardRecords(s, i, ip, port, cfg);
    if s.queries[i].cacheID != k {
      OtherRecord(s, ForwardTo(s, i, ip, port, cfg), s.queries[i].cacheID, k);
    }
  }

  lemma RespondSpares(s: State, i: nat, a: Answer, k: nat, cfg: Config)
    requires Inv(s) && IsLive(s, i) && k in s.caches.live && (s.queries[i].cacheID != k || KeepsStatus(s.queries[i], a))
    ensures Fetchable(s, i) && SameAt(s, ReplyTo(s, i, a, cfg), k)
  {
    hide InvFrom, Inv, Fetchable, ReplyTo, OnlyRecord, TakesOver, Replied, KeepsStatus;
    LiveSlots(s, i);
    InvLiveQuery(s, i);
    ReplyRecords(s, i, a, cfg);
    var q, r := s.queries[i], ReplyTo(s, i, a, cfg);
    if q.cacheID != k {
      OtherRecord(s, r, q.cacheID, k);
    } else {
      ReplyEffect(s, i, a, cfg);
      if q.reply == NoReply {
        RepliedKeeps(q, r.queries[i], a);
      }
      SameCaches(s, r, k);
    }
  }

  lemma RepliedKeeps(q: Query, p: Query, a: Answer)
    requires Replied(q, p, a) && KeepsStatus(q, a) && q.reply == NoReply
    ensures p.status == q.status
  {
  }

  lemma SettleSpares(s: State, i: nat, server: Option<(string, nat)>, reply: Reply, k: nat)
    requires Inv(s) && IsLive(s, i) && k in s.caches.live
    ensures Fetchable(s, i) && SameAt(s, FailWith(s, i, server, reply), k) && SameAt(s, DropReply(s, i), k)
  {
    hide InvFrom, Inv, Fetchable, UpdateUpstream;
    LiveSlots(s, i);
    UpdateTouches(s, i, server);
    SameCaches(s, FailWith(s, i, server, reply), k);
    SameCaches(s, DropReply(s, i), k);
  }

  lemma BlockSpares(s: State, i: nat, st: Status, k: nat, cfg: Config)
    requires Inv(s) && IsLive(s, i) && k in s.caches.live && (s.queries[i].cacheID != k || IsBlocked(s.queries[i].status))
    ensures Fetchable(s, i) && SameAt(s, QueryBlocked(s, i, st, cfg), k) && SameAt(s, BlockedByHeader(s, i, st, cfg), k)
  {
    hide InvFrom, Inv, Fetchable, QueryBlocked, OnlyRecord;
    LiveSlots(s, i);
    InvLiveQuery(s, i);
    BlockRecords(s, i, st, cfg);
    var r := QueryBlocked(s, i, st, cfg);
    if s.queries[i].cacheID != k {
      OtherRecord(s, r, s.queries[i].cacheID, k);
    } else {
      SameCaches(s, r, k);
    }
    SameCaches(r, BlockedByHeader(s, i, st, cfg), k);
  }

  lemma RestatusSpares(s: State, i: nat, ip: string, port: nat, dnssec: bool, k: nat, cfg: Config)
    requires Inv(s) && IsLive(s, i) && k in s.caches.live
    ensures Fetchable(s, i) && |s.slots| == OVERTIME_SLOTS
    ensures SameAt(s, Retrying(s, i, ip, port, dnssec, cfg), k) && SameAt(s, SetStatus(s, i, InProgress, cfg), k)
  {
    hide InvFrom, Inv, Fetchable, SetStatus, FindUpstream, Serves;
    LiveSlots(s, i);
    InvLiveQuery(s, i);
    FindUpstreamServes(s, ip, port);
    StatusRecords(s, i, InProgress, cfg);
    StatusRecords(FindUpstream(s, ip, port), i, if dnssec then RetriedDnssec else Retried, cfg);
  }

  lemma MergeSpares(s: State, src: nat, i: nat, k: nat, cfg: Config)
    requires Inv(s) && IsLive(s, src) && IsLive(s, i) && k in s.caches.live && s.queries[i].cacheID != k
    ensures Fetchable(s, src) && Fetchable(s, i) && SameAt(s, Duplicate(s, src, i, cfg), k)
  {
    hide InvFrom, Inv, Fetchable, Duplicate, OnlyRecord;
    LiveSlots(s, src);
    LiveSlots(s, i);
    InvLiveQuery(s, i);
    DuplicateRecords(s, src, i, cfg);
    OtherRecord(s, Duplicate(s, src, i, cfg), s.queries[i].cacheID, k);
  }

  lemma ArriveSpares(s: State, e: Event, k: nat, cfg: Config)
    requires Inv(s) && Enabled(s, e) && e.Arrive? && k in s.caches.live
    ensures SameAt(s, Step(s, e, cfg), k)
  {
    hide Inv, InvFrom, Enabled, Enrol, Enrolled, NewQuery, Extended;
    InvIs(s);
    EnrolReady(s, s.removed, e.ip, e.name, e.t);
    if e.analysed {
      ArriveExtends(s, e);
    } else {
      InvTables(s, s.removed);
      KnowClientExtends(s, e.ip);
      NotAnalysedIs(s, e);
    }
    ExtendedAt(s, Step(s, e, cfg), k);
  }

  lemma NotAnalysedIs(s: State, e: Event)
    requires e.Arrive? && !e.analysed && Enrolled(Enrol(s, e.ip, e.name, e.t))
    ensures NewQuery(s, e.ip, e.name, e.t, e.id, e.now, e.analysed) == KnowClient(s, e.ip)
  {
    hide Enrol, Enrolled;
  }

  lemma ExtendedAt(s: State, r: State, k: nat)
    requires Extended(s, r) && k in s.caches.live
    ensures SameAt(s, r, k)
  {
  }

  // ---- The collector ----

  lemma {:induction false} RetractFromRecords(s: State, i: nat, mintime: int, cfg: Config)
    requires InvFrom(s, i)
    ensures RetractFrom(s, i, mintime, cfg).0.caches.live.Keys == s.caches.live.Keys
    decreases |s.queries| - i
  {
    hide InvFrom, Retract, SameFrame, Shaped, QueryOk;
    if i < |s.queries| && s.queries[i].timestamp <= mintime as real {
      InvQuery(s, i, i);
      var t := Retract(s, i, cfg);
      RetractKeeps(s, i, cfg);
      SameFrameBasics(s, t);
      SameFrameRecords(s, t);
      RetractFromRecords(t, i + 1, mintime, cfg);
    }
  }

  lemma SameFrameRecords(s: State, r: State)
    requires SameFrame(s, r)
    ensures r.caches.live.Keys == s.caches.live.Keys
  {
  }

  lemma CollectSpares(s: State, mintime: int, k: nat, cfg: Config)
    requires Inv(s) && s.gc.None? && k in s.caches.live
    ensures SameAt(s, GcBegin(s, mintime, cfg), k)
  {
    hide InvFrom, RetractFrom, Ordered;
    BeginOrdered(s);
    RetractFromVerdicts(s, 0, mintime, cfg);
    RetractFromRecords(s, 0, mintime, cfg);
  }

  lemma FinishSpares(s: State, now: real, k: nat, j: nat)
    requires Inv(s) && s.gc.Some? && k in s.caches.live && IsLive(s, j) && s.queries[j].cacheID == k
    ensures s.removed <= |s.queries| && SameAt(s, GcEnd(s, now), k)
  {
    hide Inv, GcEnd, Frees;
    FinishEffect(s, now);
    assert s.queries[s.removed..][j - s.removed] == s.queries[j];
    KeptRecord(s, s.queries[s.removed..], GcEnd(s, now), now, k, j - s.removed);
  }

  lemma KeptRecord(s: State, qs: seq<Query>, r: State, now: real, k: nat, j: nat)
    requires KeepsUsed(s, qs, r, now) && k in s.caches.live && j < |qs| && qs[j].cacheID == k
    ensures SameAt(s, r, k)
  {
    assert HasCache(qs, k);
  }

  lemma FlushSpares(s: State, time: int, k: nat, j: nat, cfg: Config)
    requires Inv(s) && s.gc.None? && k in s.caches.live
    requires IsLive(s, j) && s.queries[j].cacheID == k && s.queries[j].timestamp > time as real
    ensures SameAt(s, Step(s, Flush(time), cfg), k)
  {
    hide Inv, GcBegin, GcEnd;
    var t := GcBegin(s, time, cfg);
    GcBeginKeeps(s, time, cfg);
    BeginEffect(s, time, cfg);
    CollectSpares(s, time, k, cfg);
    assert t.queries[j] == t.queries[t.removed..][j - t.removed] == s.queries[t.removed..][j - t.removed];
    FinishSpares(t, time as real, k, j);
  }

  // ---- Runs ----

  lemma StepSpares(s: State, e: Event, k: nat, cfg: Config)
    requires Inv(s) && Spares(s, e, k, cfg) && k in s.caches.live
    ensures SameAt(s, Step(s, e, cfg), k)
  {
    hide Inv, SameAt, AnswersFrom, KeepsStatus, IsBlocked;
    if e.Arrive? {
      ArriveSpares(s, e, k, cfg);
    } else if e.Collect? {
      hide GcBegin;
      CollectSpares(s, e.mintime, k, cfg);
    } else if e.Finish? {
      hide GcEnd;
      var j :| IsLive(s, j) && s.queries[j].cacheID == k;
      FinishSpares(s, e.now, k, j);
    } else if e.Flush? {
      var j :| IsLive(s, j) && s.queries[j].cacheID == k && s.queries[j].timestamp > e.time as real;
      hide Step;
      FlushSpares(s, e.time, k, j, cfg);
    } else {
      QuerySpares(s, e, k, cfg);
    }
  }

  lemma QuerySpares(s: State, e: Event, k: nat, cfg: Config)
    requires Inv(s) && Spares(s, e, k, cfg) && k in s.caches.live
    requires !e.Arrive? && !e.Collect? && !e.Finish? && !e.Flush?
    ensures SameAt(s, Step(s, e, cfg), k)
  {
    hide Enrol, Enrolled, NewQuery, Filter, Cname, Duplicate, Reload, GcBegin, GcEnd, IsBlocked, FindUpstream;
    hide Inv, InvFrom, ForwardTo, ReplyTo, FailWith, BlockedByHeader, QueryBlocked, Retrying, SetStatus, DropReply, Fetchable;
    hide SameAt, AnswersFrom, KeepsStatus;
    match e {
      case Check(i, lists) => CheckSpares(s, i, lists, k, cfg);
      case Hop(_, _, _, _, _) => HopSpares(s, e, k, cfg);
      case Merge(src, i) => MergeSpares(s, src, i, k, cfg);
      case Forward(i, ip, port) => ForwardSpares(s, i, ip, port, k, cfg);
      case Respond(i, a) => RespondSpares(s, i, a, k, cfg);
      case Fail(i, server, reply) => SettleSpares(s, i, server, reply, k);
      case Drop(i) => SettleSpares(s, i, None, NoReply, k);
      case BlockByHeader(i, st) => BlockSpares(s, i, st, k, cfg);
      case BlockByAddress(i, st) => BlockSpares(s, i, st, k, cfg);
      case Retry(i, ip, port, dnssec) => RestatusSpares(s, i, ip, port, dnssec, k, cfg);
      case Wait(i) => RestatusSpares(s, i, "", 0, false, k, cfg);
      case RetryUnknown(ip, port) => UnknownSpares(s, ip, port, k);
    }
  }

  lemma UnknownSpares(s: State, ip: string, port: nat, k: nat)
    requires k in s.caches.live
    ensures SameAt(s, FindUpstream(s, ip, port), k)
  {
    hide FindUpstream, Serves;
    FindUpstreamServes(s, ip, port);
  }

  // From `base` on, every event leaves record k alone
  ghost predicate Undisturbed(start: nat, base: seq<Event>, after: seq<Event>, k: nat, cfg: Config) {
    forall n :: 0 <= n < |after| ==> Spares(Exec(start, base + after[..n], cfg), after[n], k, cfg)
  }

  lemma {:induction false} RunSpares(start: nat, base: seq<Event>, after: seq<Event>, k: nat, cfg: Config)
    requires start >= 86400 && Orderly(start, base + after, cfg) && Undisturbed(start, base, after, k, cfg)
    requires k in Exec(start, base, cfg).caches.live
    ensures SameAt(Exec(start, base, cfg), Exec(start, base + after, cfg), k)
    decreases |after|
  {
    hide *;
    if after == [] {
      assert base + after == base;
      SelfSame(Exec(start, base, cfg), k);
    } else {
      var n := |after| - 1;
      var all, front := base + after, base + after[..n];
      assert all[..|all| - 1] == front && all[|all| - 1] == after[n];
      PrefixOrderly(start, all, |all| - 1, cfg);
      UndisturbedFront(start, base, after, k, cfg);
      RunSpares(start, base, after[..n], k, cfg);
      RunsKeepInv(start, front, cfg);
      ExecLast(start, all, cfg);
      SpareStep(Exec(start, base, cfg), Exec(start, front, cfg), after[n], k, cfg);
    }
  }

  lemma SelfSame(s: State, k: nat)
    requires k in s.caches.live
    ensures SameAt(s, s, k)
  {
  }

  lemma UndisturbedFront(start: nat, base: seq<Event>, after: seq<Event>, k: nat, cfg: Config)
    requires after != [] && Undisturbed(start, base, after, k, cfg)
    ensures var n := |after| - 1;
            Undisturbed(start, base, after[..n], k, cfg) && Spares(Exec(start, base + after[..n], cfg), after[n], k, cfg)
  {
    hide Spares, Exec;
    var n := |after| - 1;
    assert forall m :: 0 <= m < n ==> after[..n][..m] == after[..m];
  }

  lemma ExecLast(start: nat, events: seq<Event>, cfg: Config)
    requires events != []
    ensures var n := |events| - 1; Exec(start, events, cfg) == Step(Exec(start, events[..n], cfg), events[n], cfg)
  {
    hide Step;
  }

  lemma PrefixOrderly(start: nat, all: seq<Event>, n: nat, cfg: Config)
    requires Orderly(start, all, cfg) && n <= |all|
    ensures Orderly(start, all[..n], cfg)
  {
    hide Enabled, Exec;
    assert forall m :: 0 <= m < n ==> all[..n][..m] == all[..m];
  }

  lemma SpareStep(s: State, m: State, e: Event, k: nat, cfg: Config)
    requires SameAt(s, m, k) && Inv(m) && Spares(m, e, k, cfg)
    ensures SameAt(s, Step(m, e, cfg), k)
  {
    hide Inv, Spares, Step;
    StepSpares(m, e, k, cfg);
  }

  // The record has expired at that second
  predicate Expired(until: nat, at: real) {
    until > 0 && ShmTime(at.Floor) > until
  }

  // An arrived query is answered from memory: blocked with this status, short-circuited unless
  // it is an address upstream is asked for again
  ghost predicate AnsweredAs(t: State, j: nat, st: Status, r: (State, bool)) {
    j < |t.queries| && j < |r.0.queries| && r.1 == (st != ExternalIp) && r.0.queries[j].status == st
  }

  // An arrived query is answered by the lists
  ghost predicate AnsweredByLists(t: State, j: nat, d: Decision, r: (State, bool)) {
    j < |t.queries| && j < |r.0.queries| && r.1 == d.block && r.0.queries[j] == Ruled(t.queries[j], d)
  }

  lemma CheckFromMemory(t: State, j: nat, st: Status, until: nat, lists: Lists, cfg: Config)
    requires Inv(t) && Unchecked(t, j) && cfg.enabled && IsExternal(st) && t.queries[j].cacheID in t.caches.live
    requires var v := VerdictOf(t, t.queries[j].cacheID); v.blocking == st && v.expires == until
    ensures Checkable(t, j)
    ensures var r := CheckOf(t, j, lists, cfg);
            if cfg.ttl > 0 && !Expired(until, t.queries[j].timestamp) then AnsweredAs(t, j, st, r)
            else AnsweredByLists(t, j, ChainOf(t, j, lists, cfg), r)
  {
    hide InvFrom, Fetchable;
    InvCheckable(t, j);
    hide Inv, CheckOf, ChainOf;
    if cfg.ttl > 0 && !Expired(until, t.queries[j].timestamp) {
      RememberedCheck(t, j, lists, cfg);
    } else {
      FreshCheck(t, j, lists, cfg);
    }
  }

  // The record after a block, whichever hook reports it
  lemma ReportRemembered(s: State, e: Event, cfg: Config)
    requires Inv(s) && Enabled(s, e) && (e.BlockByAddress? || e.BlockByHeader?)
    requires IsExternal(e.st) && !IsBlocked(s.queries[e.i].status)
    ensures LiveQuery(s, e.i)
    ensures var q, r := s.queries[e.i], Step(s, e, cfg);
            && q.cacheID in r.caches.live
            && VerdictOf(r, q.cacheID).blocking == e.st
            && VerdictOf(r, q.cacheID).expires == Until(VerdictOf(s, q.cacheID), e.st, q.timestamp, cfg.ttl)
  {
    hide InvFrom, Fetchable, QueryBlocked, Until, IsBlocked;
    LiveSlots(s, e.i);
    hide Inv;
    BlockRemembered(s, e.i, e.st, cfg);
  }

  /** An upstream block is remembered. Let a run block query i with an external status, and let the
      events after that set no status record k of the query would remember. Then any arrived query
      with the same record, that is of the same client for the same name and type, is blocked with
      that status from memory, up to and including the second the record expires at; later, or with
      remembering switched off, the lists decide. */
  lemma RunsRememberBlocks(start: nat, before: seq<Event>, e: Event, after: seq<Event>, j: nat, lists: Lists, cfg: Config)
    requires start >= 86400 && cfg.enabled && Orderly(start, before + [e] + after, cfg)
    requires (e.BlockByAddress? || e.BlockByHeader?) && IsExternal(e.st)
    requires var s := Exec(start, before, cfg);
             && IsLive(s, e.i) && !IsBlocked(s.queries[e.i].status)
             && Undisturbed(start, before + [e], after, s.queries[e.i].cacheID, cfg)
             && var t := Exec(start, before + [e] + after, cfg);
                Unchecked(t, j) && t.queries[j].cacheID == s.queries[e.i].cacheID
    ensures var s, t := Exec(start, before, cfg), Exec(start, before + [e] + after, cfg);
            var q := s.queries[e.i];
            && q.cacheID in s.caches.live && Checkable(t, j)
            && var r, until := CheckOf(t, j, lists, cfg), Until(VerdictOf(s, q.cacheID), e.st, q.timestamp, cfg.ttl);
               if cfg.ttl > 0 && !Expired(until, t.queries[j].timestamp) then AnsweredAs(t, j, e.st, r)
               else AnsweredByLists(t, j, ChainOf(t, j, lists, cfg), r)
  {
    var base := before + [e];
    var all := base + after;
    assert base[..|base| - 1] == before && base[|base| - 1] == e;
    assert all[..|before|] == before && all[|before|] == e && all[..|base|] == base;
    PrefixOrderly(start, all, |before|, cfg);
    PrefixOrderly(start, all, |base|, cfg);
    var s, m, t := Exec(start, before, cfg), Exec(start, base, cfg), Exec(start, all, cfg);
    assert Enabled(s, e) && m == Step(s, e, cfg);
    var k := s.queries[e.i].cacheID;
    hide Exec, Step, Enabled, Orderly, Undisturbed, Inv, Until, Expired, IsBlocked;
    hide SameAt, AnsweredAs, AnsweredByLists, Unchecked, CheckOf, ChainOf;
    RunsKeepInv(start, before, cfg);
    RunsKeepInv(start, all, cfg);
    ReportRemembered(s, e, cfg);
    RunSpares(start, base, after, k, cfg);
    FromMemory(m, t, k, j, e.st, lists, cfg);
  }

  lemma FromMemory(m: State, t: State, k: nat, j: nat, st: Status, lists: Lists, cfg: Config)
    requires SameAt(m, t, k) && Inv(t) && Unchecked(t, j) && cfg.enabled && IsExternal(st)
    requires t.queries[j].cacheID == k && VerdictOf(m, k).blocking == st
    ensures Checkable(t, j)
    ensures var r, until := CheckOf(t, j, lists, cfg), VerdictOf(m, k).expires;
            if cfg.ttl > 0 && !Expired(until, t.queries[j].timestamp) then AnsweredAs(t, j, st, r)
            else AnsweredByLists(t, j, ChainOf(t, j, lists, cfg), r)
  {
    hide Inv, Checkable, CheckOf, ChainOf, Expired, AnsweredAs, AnsweredByLists, IsExternal;
    CheckFromMemory(t, j, st, VerdictOf(m, k).expires, lists, cfg);
  }

  /** In seconds, while the 32-bit clock of the records, which starts with the year 2026, does not wrap: the first block of a record is
      remembered for exactly `ttl` seconds from the blocked query on, that second included. */
  lemma ExpiresAfterTtl(v: Verdict, st: Status, blocked: real, at: real, ttl: nat)
    requires ttl > 0 && v.expires == 0 && v.blocking != st
    requires 1767225600 <= blocked.Floor && 1767225600 <= at.Floor < 1767225600 + 0x1_0000_0000
    requires blocked.Floor + ttl < 1767225600 + 0x1_0000_0000
    ensures Expired(Until(v, st, blocked, ttl), at) <==> at.Floor > blocked.Floor + ttl
  {
  }

  /** A block that would expire in the second the clock wraps at is never forgotten. */
  lemma WrapNeverExpires(v: Verdict, st: Status, blocked: real, at: real, ttl: nat)
    requires ttl > 0 && v.expires == 0 && v.blocking != st
    requires blocked.Floor + ttl == 1767225600 + 0x1_0000_0000
    ensures !Expired(Until(v, st, blocked, ttl), at)
  {
  }

  /** The check as a whole answers what Lorentz_check_blocking() answers, and dnsmasq goes on with
      exactly the queries that are not blocked. With blocking switched off that is every query, and
      nothing is recorded. */
  lemma FilterEffect(s: State, i: nat, lists: Lists, cfg: Config)
    requires Inv(s) && Unchecked(s, i)
    ensures Checkable(s, i)
    ensures var r, c := Filter(s, i, lists, cfg), CheckOf(s, i, lists, cfg);
            && i < |r.0.queries| && i < |c.0.queries|
            && r.1 == c.1 && r.0.queries[i] == c.0.queries[i].(released := !r.1)
            && (!cfg.enabled ==> !r.1 && r.0 == WithQuery(s, i, s.queries[i].(released := true)))
  {
    hide InvFrom, Fetchable;
    InvCheckable(s, i);
    hide Inv;
    CheckedLength(s, i, lists, cfg);
    FilterIs(s, i, lists, cfg);
  }

  lemma CheckedLength(s: State, i: nat, lists: Lists, cfg: Config)
    requires Checkable(s, i)
    ensures i < |CheckOf(s, i, lists, cfg).0.queries|
    ensures !cfg.enabled ==> CheckOf(s, i, lists, cfg) == (s, false)
  {
    hide Current;
    if cfg.enabled {
      if Current(VerdictOf(s, s.queries[i].cacheID), s.queries[i].timestamp, cfg.ttl).blocking != Unknown {
        RememberedCheck(s, i, lists, cfg);
      } else {
        FreshCheck(s, i, lists, cfg);
      }
      hide CheckOf;
    }
  }
}
