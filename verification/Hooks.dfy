// Every hook keeps the invariant.
module Hooks {
  import opened Records
  import opened Interning
  import opened OverTime
  import opened Blocking
  import opened Hashing
  import opened Store
  import opened Conservation
  import opened Collection

  // ---- Steps that stay within the known records ----

  ghost predicate Stays(s: State, r: State) {
    && SameFrame(s, r)
    && forall j :: 0 <= j < |s.queries| ==> SameIdentity(s.queries[j], r.queries[j])
  }

  // No query but query i has changed
  ghost predicate OnlyQuery(s: State, i: nat, r: State) {
    |r.queries| == |s.queries| && forall j :: 0 <= j < |s.queries| && j != i ==> r.queries[j] == s.queries[j]
  }

  // The invariant is kept, no record and no query comes or goes, and of the queries at
  // most query i changes
  ghost predicate Good(s: State, from: nat, i: nat, r: State) {
    InvFrom(r, from) && Stays(s, r) && OnlyQuery(s, i, r)
  }

  lemma StaysTrans(s: State, r: State, t: State)
    requires Stays(s, r) && Stays(r, t)
    ensures Stays(s, t)
  {
    SameFrameTrans(s, r, t);
    hide SameFrame;
    SameFrameBasics(s, r);
    SameFrameBasics(r, t);
    forall j | 0 <= j < |s.queries|
      ensures SameIdentity(s.queries[j], t.queries[j])
    {
      assert SameIdentity(s.queries[j], r.queries[j]) && SameIdentity(r.queries[j], t.queries[j]);
    }
  }

  lemma GoodTrans(s: State, from: nat, i: nat, r: State, t: State)
    requires Good(s, from, i, r) && Good(r, from, i, t)
    ensures Good(s, from, i, t)
  {
    hide InvFrom, Stays;
    StaysTrans(s, r, t);
  }

  lemma GoodBasics(s: State, from: nat, i: nat, r: State)
    requires Good(s, from, i, r)
    ensures InvFrom(r, from) && |r.queries| == |s.queries| && r.gc == s.gc && r.removed == s.removed
    ensures r.domains.live.Keys == s.domains.live.Keys && r.caches.live.Keys == s.caches.live.Keys
    ensures r.clients.live.Keys == s.clients.live.Keys
    ensures forall j :: 0 <= j < |s.queries| ==> SameIdentity(s.queries[j], r.queries[j])
    ensures |r.slots| == OVERTIME_SLOTS && OnlyQuery(s, i, r)
  {
    hide Tables, Conserved, CnameCovered, QueriesOk, Ordered, CachesOk;
  }

  lemma GoodRefl(s: State, from: nat, i: nat)
    requires InvFrom(s, from)
    ensures Good(s, from, i, s)
  {
    hide Tables, Conserved, CnameCovered, QueriesOk, Ordered, Aligned;
  }

  lemma OneChange(s: State, from: nat, i: nat, r: State)
    requires InvFrom(r, from) && SameFrame(s, r) && i < |s.queries|
    requires r.queries == s.queries[i := r.queries[i]] && SameIdentity(s.queries[i], r.queries[i])
    ensures Good(s, from, i, r)
  {
    hide InvFrom, SameFrame;
    forall j | 0 <= j < |s.queries|
      ensures SameIdentity(s.queries[j], r.queries[j])
    {
    }
  }

  /** A query is blocked once: the first block sets the status and takes the query off its
      upstream server if it was forwarded, and any further one changes nothing. */
  lemma BlockedOnce(s: State, from: nat, i: nat, st: Status, again: Status, cfg: Config)
    requires InvFrom(s, from) && from <= i < |s.queries| && IsBlocked(st)
    ensures |s.slots| == OVERTIME_SLOTS
    ensures var q, r := s.queries[i], QueryBlocked(s, i, st, cfg);
            && |r.slots| == OVERTIME_SLOTS && |r.queries| == |s.queries|
            && r.queries[i] == (if IsBlocked(q.status) then q else q.(status := st, counted := q.counted && q.status != Forwarded))
            && QueryBlocked(r, i, again, cfg) == r
  {
    hide InvFrom, Shaped, CachesOk, Good, SetStatus, SameFrame;
    InvSlots(s, from);
    BlockedGood(s, from, i, st, cfg);
    var r := QueryBlocked(s, i, st, cfg);
    GoodBasics(s, from, i, r);
    if s.queries[i].status == Forwarded && s.queries[i].counted {
      HandBackGood(s, from, i);
      GoodBasics(s, from, i, HandBack(s, i));
      SetStatusKeeps(HandBack(s, i), from, i, st, cfg);
    } else {
      SetStatusKeeps(s, from, i, st, cfg);
    }
  }

  lemma FlagsGood(s: State, from: nat, i: nat, p: Query)
    requires InvFrom(s, from) && from <= i < |s.queries|
    requires SameIdentity(s.queries[i], p)
    requires p.status == s.queries[i].status && p.reply == s.queries[i].reply && p.cname == s.queries[i].cname
    requires p.counted == s.queries[i].counted && p.upstreamID == s.queries[i].upstreamID
    ensures Good(s, from, i, WithQuery(s, i, p))
  {
    FlagsKeep(s, from, i, p);
    hide Tables, Conserved, CnameCovered, QueriesOk, Ordered, Aligned, Hits, Moved;
    forall k: Tally {
      SameHits(s.queries[i], p, k);
    }
    FlagsMove(s, i, p);
    hide InvFrom, SameFrame;
    OneChange(s, from, i, WithQuery(s, i, p));
  }

  lemma ReplyGood(s: State, from: nat, i: nat, x: Reply)
    requires InvFrom(s, from) && from <= i < |s.queries|
    ensures Good(s, from, i, SetReply(s, i, x))
  {
    SetReplyKeeps(s, from, i, x);
    hide Tables, Conserved, CnameCovered, QueriesOk, Ordered, Aligned, Moved;
    SetReplyMoves(s, i, x);
    hide InvFrom, SameFrame;
    OneChange(s, from, i, SetReply(s, i, x));
  }

  lemma StatusGood(s: State, from: nat, i: nat, st: Status, cfg: Config)
    requires InvFrom(s, from) && from <= i < |s.queries|
    ensures Good(s, from, i, SetStatus(s, i, st, cfg))
  {
    hide InvFrom, Shaped, CachesOk, SameFrame, Good, SetStatus;
    InvSlots(s, from);
    SetStatusKeeps(s, from, i, st, cfg);
    SetStatusFrame(s, i, st, cfg);
    OneChange(s, from, i, SetStatus(s, i, st, cfg));
  }

  lemma UpstreamGood(s: State, r: State, from: nat, i: nat, p: Query)
    requires InvFrom(s, from) && from <= i < |s.queries| && UpstreamMove(s, r, i, p)
    ensures Good(s, from, i, r)
  {
    InvQuery(s, from, i);
    assert CachesOk(s);
    assert SameIdentity(s.queries[i], p) && r.queries == s.queries[i := p];
    hide InvFrom, QueryOk, UpstreamMove, Aligned, Moved, CachesOk, SameFrame;
    UpstreamMoveKeeps(s, r, from, i, p);
    UpstreamMoves(s, r, i, p);
    OneChange(s, from, i, r);
  }

  lemma QuietGood(s: State, from: nat, i: nat, r: State)
    requires InvFrom(r, from) && SameFrame(s, r) && r.queries == s.queries
    ensures Good(s, from, i, r)
  {
    hide InvFrom, SameFrame;
  }

  lemma FindUpstreamGood(s: State, from: nat, i: nat, ip: string, port: nat)
    requires InvFrom(s, from)
    ensures Good(s, from, i, FindUpstream(s, ip, port))
  {
    FindUpstreamKeeps(s, from, ip, port);
    hide Tables, Conserved, CnameCovered, QueriesOk, Ordered, Aligned, Still, CachesOk, UpstreamIndex;
    FindUpstreamStill(s, ip, port);
    hide InvFrom, SameFrame;
    QuietGood(s, from, i, FindUpstream(s, ip, port));
  }

  lemma UpdateUpstreamGood(s: State, from: nat, i: nat, server: Option<(string, nat)>)
    requires InvFrom(s, from) && from <= i < |s.queries|
    ensures Good(s, from, i, UpdateUpstream(s, i, server))
  {
    hide InvFrom, Aligned, UpstreamIndex, Good;
    if !s.queries[i].answered && server.Some? {
      var s1 := FindUpstream(s, server.value.0, server.value.1);
      FindUpstreamKeeps(s, from, server.value.0, server.value.1);
      FindUpstreamGood(s, from, i, server.value.0, server.value.1);
      InvQuery(s1, from, i);
      var r := UpdateUpstream(s, i, server);
      if r != s1 {
        assert UpstreamMove(s1, r, i, r.queries[i]);
        UpstreamGood(s1, r, from, i, r.queries[i]);
        GoodTrans(s, from, i, s1, r);
      }
    } else {
      GoodRefl(s, from, i);
    }
  }

  lemma CountAtGood(s: State, from: nat, i: nat, u: nat)
    requires InvFrom(s, from) && from <= i < |s.queries| && u < |s.upstreams|
    ensures Good(s, from, i, CountAt(s, i, u))
  {
    hide InvFrom, Aligned, Good;
    InvQuery(s, from, i);
    var r := CountAt(s, i, u);
    assert UpstreamMove(s, r, i, r.queries[i]);
    UpstreamGood(s, r, from, i, r.queries[i]);
  }

  lemma HandBackGood(s: State, from: nat, i: nat)
    requires InvFrom(s, from) && from <= i < |s.queries| && s.queries[i].counted
    ensures Good(s, from, i, HandBack(s, i))
  {
    hide InvFrom, Aligned, Good;
    InvQuery(s, from, i);
    var r := HandBack(s, i);
    assert UpstreamMove(s, r, i, r.queries[i]);
    UpstreamGood(s, r, from, i, r.queries[i]);
  }

  lemma BlockedGood(s: State, from: nat, i: nat, st: Status, cfg: Config)
    requires InvFrom(s, from) && from <= i < |s.queries|
    ensures Good(s, from, i, QueryBlocked(s, i, st, cfg))
  {
    hide InvFrom, Good, SetStatus, HandBack;
    InvQuery(s, from, i);
    var q := s.queries[i];
    if q.status == Forwarded && q.counted {
      HandBackGood(s, from, i);
      GoodBasics(s, from, i, HandBack(s, i));
      StatusGood(HandBack(s, i), from, i, st, cfg);
      GoodTrans(s, from, i, HandBack(s, i), SetStatus(HandBack(s, i), i, st, cfg));
    } else if !IsBlocked(q.status) {
      StatusGood(s, from, i, st, cfg);
    } else {
      GoodRefl(s, from, i);
    }
  }

  lemma HoldCnameGood(s: State, from: nat, i: nat, x: int)
    requires InvFrom(s, from) && from <= i < |s.queries| && (x == -1 || (0 <= x && x in s.domains.live))
    ensures Good(s, from, i, HoldCname(s, i, x))
  {
    HoldCnameKeeps(s, from, i, x);
    hide Tables, Conserved, CnameCovered, QueriesOk, Ordered, Aligned, Moved, CachesOk, HoldCname;
    HoldCnameMoves(s, i, x);
    hide InvFrom, SameFrame;
    OneChange(s, from, i, HoldCname(s, i, x));
  }

  lemma CacheHoldGood(s: State, from: nat, i: nat, c: nat, x: int)
    requires InvFrom(s, from) && c in s.caches.live && 0 <= x && x in s.domains.live
    ensures Good(s, from, i, CacheHold(s, c, x))
  {
    CacheHoldKeeps(s, from, c, x);
    hide Tables, Conserved, CnameCovered, QueriesOk, Ordered, Aligned, CachesOk, CacheHold;
    CacheHoldFrame(s, c, x);
    hide InvFrom, SameFrame;
    QuietGood(s, from, i, CacheHold(s, c, x));
  }

  lemma VerdictGood(s: State, from: nat, i: nat, c: nat, v: Verdict)
    requires InvFrom(s, from) && c in s.caches.live
    ensures Good(s, from, i, WithCache(s, c, s.caches.live[c].data.(verdict := v)))
  {
    var r := WithCache(s, c, s.caches.live[c].data.(verdict := v));
    VerdictKeeps(s, from, c, v);
    assert r.queries == s.queries;
    hide Tables, Conserved, CnameCovered, QueriesOk, Ordered, Aligned, CachesOk, Still;
    VerdictStill(s, c, v);
    hide InvFrom, SameFrame;
    QuietGood(s, from, i, r);
  }

  // ---- Blocking ----

  lemma ApplyVerdictGood(s: State, from: nat, i: nat, cfg: Config)
    requires InvFrom(s, from) && from <= i < |s.queries| && s.queries[i].cacheID in s.caches.live
    ensures Good(s, from, i, ApplyVerdict(s, i, cfg).0)
  {
    hide InvFrom, Good, QueryBlocked, HoldCname, QueryOk, Aligned, Shaped;
    InvSlots(s, from);
    var q := s.queries[i];
    var st := s.caches.live[q.cacheID].data.verdict.blocking;
    GoodRefl(s, from, i);
    if IsListed(st) && !q.allowed {
      BlockedGood(s, from, i, st, cfg);
      GoodBasics(s, from, i, QueryBlocked(s, i, st, cfg));
      ListedCnameGood(s, from, i, QueryBlocked(s, i, st, cfg));
    } else if !IsListed(st) && (st == SpecialDomain || IsExternal(st)) {
      BlockedGood(s, from, i, st, cfg);
    } else if !IsListed(st) && s.caches.live[q.cacheID].data.verdict.allowed {
      FlagsGood(s, from, i, q.(allowed := true));
    }
  }

  // A query blocked for its CNAME also holds the target its record remembers
  lemma ListedCnameGood(s: State, from: nat, i: nat, s1: State)
    requires InvFrom(s, from) && from <= i < |s.queries| && s.queries[i].cacheID in s.caches.live
    requires Good(s, from, i, s1) && i < |s1.queries|
    ensures Good(s, from, i, HoldCname(s1, i, s.caches.live[s.queries[i].cacheID].data.cname))
  {
    var k := s.queries[i].cacheID;
    var cname := s.caches.live[k].data.cname;
    assert -1 <= cname by {
      CacheCnameNone(s, from, k);
    }
    hide *;
    GoodBasics(s, from, i, s1);
    if cname >= 0 {
      CacheCnameLive(s, from, k);
    }
    HoldCnameGood(s1, from, i, cname);
    GoodTrans(s, from, i, s1, HoldCname(s1, i, cname));
  }

  lemma ApplyDecisionGood(s: State, from: nat, i: nat, d: Decision, cfg: Config)
    requires InvFrom(s, from) && from <= i < |s.queries| && s.queries[i].cacheID in s.caches.live
    ensures Good(s, from, i, ApplyDecision(s, i, d, cfg).0)
  {
    InvQuery(s, from, i);
    var k := s.queries[i].cacheID;
    var c := s.caches.live[k].data;
    var s1 := WithQuery(s, i, s.queries[i].(allowed := d.allowed));
    hide InvFrom, Good, QueryBlocked, QueryOk, Aligned;
    FlagsGood(s, from, i, s.queries[i].(allowed := d.allowed));
    GoodBasics(s, from, i, s1);
    if d.block {
      var v := c.verdict.(blocking := SpecialDomain);
      VerdictGood(s1, from, i, k, v);
      var s2 := if d.status == SpecialDomain then WithCache(s1, k, c.(verdict := v)) else s1;
      GoodTrans(s, from, i, s1, WithCache(s1, k, c.(verdict := v)));
      GoodBasics(s, from, i, s2);
      BlockedGood(s2, from, i, d.status, cfg);
      GoodTrans(s, from, i, s2, QueryBlocked(s2, i, d.status, cfg));
    } else if d.dbOkay {
      VerdictGood(s1, from, i, k, c.verdict.(allowed := d.allowed));
      GoodTrans(s, from, i, s1, WithCache(s1, k, c.(verdict := c.verdict.(allowed := d.allowed))));
    }
  }

  lemma CheckBlockingGood(s: State, from: nat, i: nat, name: string, domainID: nat, lists: Lists, cfg: Config)
    requires InvFrom(s, from) && from <= i < |s.queries|
    requires s.queries[i].cacheID in s.caches.live && s.queries[i].clientID in s.clients.live
    ensures Good(s, from, i, CheckBlocking(s, i, name, domainID, lists, cfg).0)
  {
    InvQuery(s, from, i);
    var q := s.queries[i];
    hide InvFrom, Good, QueryOk, Aligned, ApplyVerdict, ApplyDecision, Decide, Current;
    GoodRefl(s, from, i);
    if cfg.enabled {
      var c := s.caches.live[q.cacheID].data;
      var v := Current(c.verdict, q.timestamp, cfg.ttl);
      var s1 := WithCache(s, q.cacheID, c.(verdict := v));
      VerdictGood(s, from, i, q.cacheID, v);
      GoodBasics(s, from, i, s1);
      if q.domainID == domainID && v.blocking != Unknown {
        ApplyVerdictGood(s1, from, i, cfg);
        GoodTrans(s, from, i, s1, ApplyVerdict(s1, i, cfg).0);
      } else if !q.allowed {
        var d := Decide(lists, cfg, name, s.clients.live[q.clientID].key, q.qtype, false);
        ApplyDecisionGood(s1, from, i, d, cfg);
        GoodTrans(s, from, i, s1, ApplyDecision(s1, i, d, cfg).0);
      }
    }
  }

  lemma FilterGood(s: State, from: nat, i: nat, lists: Lists, cfg: Config)
    requires InvFrom(s, from) && from <= i < |s.queries|
    requires s.queries[i].cacheID in s.caches.live && s.queries[i].clientID in s.clients.live
    requires s.queries[i].domainID in s.domains.live
    ensures Good(s, from, i, Filter(s, i, lists, cfg).0)
  {
    InvQuery(s, from, i);
    hide InvFrom, Good, QueryOk, Aligned, CheckBlocking;
    var q := s.queries[i];
    var r := CheckBlocking(s, i, s.domains.live[q.domainID].key, q.domainID, lists, cfg);
    CheckBlockingGood(s, from, i, s.domains.live[q.domainID].key, q.domainID, lists, cfg);
    GoodBasics(s, from, i, r.0);
    FlagsGood(r.0, from, i, r.0.queries[i].(released := !r.1));
    GoodTrans(s, from, i, r.0, Filter(s, i, lists, cfg).0);
  }

  lemma BlockedByCnameGood(s: State, from: nat, i: nat, x: int, reply: Reply, cfg: Config)
    requires InvFrom(s, from) && from <= i < |s.queries| && s.queries[i].cacheID in s.caches.live
    requires 0 <= x && x in s.domains.live
    ensures Good(s, from, i, BlockedByCname(s, i, x, reply, cfg))
  {
    InvQuery(s, from, i);
    hide InvFrom, Good, QueryOk, Aligned, HoldCname, CacheHold, SetStatus, SetReply;
    var s0 := SetReply(s, i, reply);
    ReplyGood(s, from, i, reply);
    GoodBasics(s, from, i, s0);
    var s1 := HoldCname(s0, i, x);
    HoldCnameGood(s0, from, i, x);
    GoodTrans(s, from, i, s0, s1);
    GoodBasics(s, from, i, s1);
    var s2 := CacheHold(s1, s.queries[i].cacheID, x);
    CacheHoldGood(s1, from, i, s.queries[i].cacheID, x);
    GoodTrans(s, from, i, s1, s2);
    GoodBasics(s, from, i, s2);
    StatusGood(s2, from, i, CnameOf(s2.queries[i].status), cfg);
    GoodTrans(s, from, i, s2, SetStatus(s2, i, CnameOf(s2.queries[i].status), cfg));
  }

  lemma WithChildKeeps(s: State, from: nat, child: string, now: real)
    requires InvFrom(s, from)
    ensures var r := WithChild(s, child, now);
            && InvFrom(r, from)
            && r == s.(domains := r.domains)
            && DomainId(s, child) in r.domains.live
  {
    KnowDomainKeeps(s, from, child);
    hide InvFrom;
    TouchKeeps(KnowDomain(s, child), from, DomainId(s, child), now);
  }

  lemma CnameKeeps(s: State, from: nat, i: nat, child: string, now: real, reply: Reply, lists: Lists, cfg: Config)
    requires InvFrom(s, from) && from <= i < |s.queries|
    requires s.queries[i].cacheID in s.caches.live && s.queries[i].clientID in s.clients.live
    ensures var r := Cname(s, i, child, now, reply, lists, cfg).0;
            && InvFrom(r, from)
            && |r.queries| == |s.queries| && r.gc == s.gc && r.removed == s.removed
  {
    hide InvFrom, Shaped, Good, KnowDomain, CheckBlocking, BlockedByCname, DomainId;
    var x := DomainId(s, child);
    InvSlots(s, from);
    WithChildKeeps(s, from, child, now);
    var s2 := WithChild(s, child, now);
    CheckBlockingGood(s2, from, i, child, x, lists, cfg);
    var b := CheckBlocking(s2, i, child, x, lists, cfg);
    GoodBasics(s2, from, i, b.0);
    if b.1 {
      BlockedByCnameGood(b.0, from, i, x, reply, cfg);
      GoodBasics(b.0, from, i, BlockedByCname(b.0, i, x, reply, cfg));
    }
  }

  // ---- Forwarding and replies ----

  lemma ForwardGood(s: State, from: nat, i: nat, ip: string, port: nat, cfg: Config)
    requires InvFrom(s, from) && from <= i < |s.queries|
    ensures Good(s, from, i, ForwardTo(s, i, ip, port, cfg))
  {
    InvQuery(s, from, i);
    hide InvFrom, Good, QueryOk, Aligned, FindUpstream, CountAt, SetStatus, UpstreamIndex;
    GoodRefl(s, from, i);
    if !s.queries[i].complete {
      var s0 := FindUpstream(s, ip, port);
      var u := UpstreamIndex(s.upstreams, ip, port);
      FindUpstreamKeeps(s, from, ip, port);
      FindUpstreamGood(s, from, i, ip, port);
      var s1 := CountAt(s0, i, u);
      CountAtGood(s0, from, i, u);
      GoodTrans(s, from, i, s0, s1);
      GoodBasics(s, from, i, s1);
      FlagsGood(s1, from, i, s1.queries[i].(complete := true));
      GoodTrans(s, from, i, s1, Completed(s1, i));
      FlagsGood(s1, from, i, s1.queries[i].(answered := false));
      GoodTrans(s, from, i, s1, Unanswered(s1, i));
      var s2 := if s.queries[i].status == Cache then Unanswered(s1, i) else Completed(s1, i);
      GoodBasics(s, from, i, s2);
      StatusGood(s2, from, i, Forwarded, cfg);
      GoodTrans(s, from, i, s2, SetStatus(s2, i, Forwarded, cfg));
    }
  }

  lemma CompletedGood(s: State, from: nat, i: nat, r: State)
    requires from <= i < |s.queries| && Good(s, from, i, r)
    ensures i < |r.queries| && Good(s, from, i, Completed(r, i))
  {
    GoodBasics(s, from, i, r);
    hide Good, InvFrom;
    FlagsGood(r, from, i, r.queries[i].(complete := true));
    GoodTrans(s, from, i, r, Completed(r, i));
  }

  lemma ThenReply(s: State, from: nat, i: nat, r: State, x: Reply)
    requires from <= i < |s.queries| && Good(s, from, i, r)
    ensures i < |r.queries| && Good(s, from, i, SetReply(r, i, x))
  {
    GoodBasics(s, from, i, r);
    hide Good, InvFrom, SetReply;
    ReplyGood(r, from, i, x);
    GoodTrans(s, from, i, r, SetReply(r, i, x));
  }

  lemma ThenStatus(s: State, from: nat, i: nat, r: State, st: Status, cfg: Config)
    requires from <= i < |s.queries| && Good(s, from, i, r)
    ensures i < |r.queries| && |r.slots| == OVERTIME_SLOTS && Good(s, from, i, SetStatus(r, i, st, cfg))
  {
    GoodBasics(s, from, i, r);
    hide Good, InvFrom, SetStatus;
    StatusGood(r, from, i, st, cfg);
    GoodTrans(s, from, i, r, SetStatus(r, i, st, cfg));
  }

  lemma FirstReplyGood(s: State, from: nat, i: nat, a: Answer, cfg: Config)
    requires InvFrom(s, from) && from <= i < |s.queries|
    ensures Good(s, from, i, FirstReply(s, i, a, cfg))
  {
    hide InvFrom, Good, SetReply, SetStatus, Completed, IsBlocked;
    InvSlots(s, from);
    GoodRefl(s, from, i);
    var q := s.queries[i];
    var qs := if a.stale then CacheStale else Cache;
    ThenStatus(s, from, i, s, qs, cfg);
    ThenReply(s, from, i, s, a.reply);
    ThenReply(s, from, i, SetStatus(s, i, qs, cfg), a.reply);
    CompletedGood(s, from, i, SetReply(s, i, a.reply));
    CompletedGood(s, from, i, SetReply(SetStatus(s, i, qs, cfg), i, a.reply));
    ThenStatus(s, from, i, SetReply(s, i, a.reply), Cache, cfg);
    CompletedGood(s, from, i, SetStatus(SetReply(s, i, a.reply), i, Cache, cfg));
  }

  lemma ReplyToGood(s: State, from: nat, i: nat, a: Answer, cfg: Config)
    requires InvFrom(s, from) && from <= i < |s.queries|
    ensures Good(s, from, i, ReplyTo(s, i, a, cfg))
  {
    hide InvFrom, Good, UpdateUpstream, FirstReply, Cached;
    InvSlots(s, from);
    GoodRefl(s, from, i);
    UpdateUpstreamGood(s, from, i, a.server);
    var s1 := if Cached(a, s.queries[i].qtype) then s else UpdateUpstream(s, i, a.server);
    GoodBasics(s, from, i, s1);
    var s2 := Answered(s1, i);
    FlagsGood(s1, from, i, s1.queries[i].(answered := true));
    GoodTrans(s, from, i, s1, s2);
    GoodBasics(s, from, i, s2);
    FirstReplyGood(s2, from, i, a, cfg);
    GoodTrans(s, from, i, s2, FirstReply(s2, i, a, cfg));
  }

  lemma GoodKeepsInv(s: State, from: nat, i: nat, r: State)
    requires Good(s, from, i, r)
    ensures InvFrom(r, from)
  {
  }

  lemma DuplicateReplyKeeps(s: State, from: nat, i: nat, x: Reply)
    requires InvFrom(s, from) && from <= i < |s.queries|
    ensures Good(s, from, i, s.(reply := Bump(Bump(s.reply, s.queries[i].reply, -1), x, 1),
                             queries := s.queries[i := s.queries[i].(reply := x, complete := true)]))
  {
    hide InvFrom, Good;
    var r := SetReply(s, i, x);
    var p := s.queries[i].(reply := x, complete := true, answered := s.queries[i].answered);
    ReplyGood(s, from, i, x);
    assert r.queries[i] == s.queries[i].(reply := x, answered := true);
    GoodKeepsInv(s, from, i, r);
    FlagsGood(r, from, i, p);
    GoodTrans(s, from, i, r, WithQuery(r, i, p));
    assert r.queries[i := p] == s.queries[i := p];
  }

  lemma CnameRange(s: State, from: nat, i: nat)
    requires InvFrom(s, from) && from <= i < |s.queries|
    ensures s.queries[i].cname == -1 || (0 <= s.queries[i].cname && s.queries[i].cname in s.domains.live)
    ensures |s.slots| == OVERTIME_SLOTS
  {
    InvQuery(s, from, i);
    InvSlots(s, from);
    hide InvFrom;
    if s.queries[i].cname >= 0 {
      QueryCnameLive(s, from, i);
    }
  }

  lemma DuplicateGood(s: State, from: nat, src: nat, i: nat, cfg: Config)
    requires InvFrom(s, from) && from <= src < |s.queries| && from <= i < |s.queries|
    ensures Good(s, from, i, Duplicate(s, src, i, cfg))
  {
    hide InvFrom, Good, HoldCname, SetStatus;
    var source := s.queries[src];
    CnameRange(s, from, src);
    var q := s.queries[i];
    var s1 := s.(reply := Bump(Bump(s.reply, q.reply, -1), source.reply, 1),
                 queries := s.queries[i := q.(reply := source.reply, complete := true)]);
    DuplicateReplyKeeps(s, from, i, source.reply);
    GoodBasics(s, from, i, s1);
    HoldCnameGood(s1, from, i, source.cname);
    var s2 := HoldCname(s1, i, source.cname);
    GoodTrans(s, from, i, s1, s2);
    ThenStatus(s, from, i, s2, source.status, cfg);
  }

  // ---- A new query ----

  lemma EnrolKeeps(s: State, from: nat, ip: string, name: string, t: QType)
    requires InvFrom(s, from)
    ensures var e := Enrol(s, ip, name, t);
            && InvFrom(e.state, from)
            && e.state == s.(clients := e.state.clients, domains := e.state.domains, caches := e.state.caches)
            && e.clientID in e.state.clients.live && e.domainID in e.state.domains.live && e.cacheID in e.state.caches.live
            && e.state.caches.live[e.cacheID].key == CacheKey(e.domainID, e.clientID, t)
  {
    hide InvFrom;
    var c, s1 := ClientId(s, ip), KnowClient(s, ip);
    KnowClientKeeps(s, from, ip);
    var d, s2 := DomainId(s1, name), KnowDomain(s1, name);
    KnowDomainKeeps(s1, from, name);
    KnowCacheKeeps(s2, from, CacheKey(d, c, t));
  }

  lemma EnrolReady(s: State, from: nat, ip: string, name: string, t: QType)
    requires InvFrom(s, from)
    ensures Enrolled(Enrol(s, ip, name, t))
  {
    EnrolKeeps(s, from, ip, name, t);
    hide Enrol, Tables, Conserved, CnameCovered, QueriesOk, Ordered, CachesOk;
  }

  lemma NewQueryKeeps(s: State, from: nat, ip: string, name: string, t: QType, id: int, now: real, analysed: bool)
    requires InvFrom(s, from) && InWindow(s, now)
    requires s.queries != [] ==> s.queries[|s.queries| - 1].timestamp <= now
    requires s.gc.Some? ==> s.gc.value as real <= now
    requires Enrolled(Enrol(s, ip, name, t))
    ensures var r := NewQuery(s, ip, name, t, id, now, analysed);
            InvFrom(r, from) && r.gc == s.gc && r.removed == s.removed
  {
    hide InvFrom, Enrol, Shaped, InWindow, KnowClient;
    if analysed {
      EnrolKeeps(s, from, ip, name, t);
      var e := Enrol(s, ip, name, t);
      SameWindow(s, e.state, from, now);
      AppendFresh(e.state, from, FreshQuery(id, now, t, e.domainID, e.clientID, e.cacheID));
    } else {
      KnowClientKeeps(s, from, ip);
    }
  }

  lemma SameWindow(s: State, r: State, from: nat, now: real)
    requires InvFrom(s, from) && InvFrom(r, from) && r.slots == s.slots && InWindow(s, now)
    ensures Shaped(r) && InWindow(r, now)
  {
    hide Tables, Conserved, CnameCovered, QueriesOk, Ordered, CachesOk, Aligned;
  }

  lemma AppendFresh(s: State, from: nat, q: Query)
    requires InvFrom(s, from) && InWindow(s, q.timestamp)
    requires s.queries != [] ==> s.queries[|s.queries| - 1].timestamp <= q.timestamp
    requires s.gc.Some? ==> s.gc.value as real <= q.timestamp
    requires q.clientID in s.clients.live && q.domainID in s.domains.live && q.cacheID in s.caches.live
    requires s.caches.live[q.cacheID].key == CacheKey(q.domainID, q.clientID, q.qtype)
    requires q == FreshQuery(q.id, q.timestamp, q.qtype, q.domainID, q.clientID, q.cacheID) && q.id >= 0
    ensures InvFrom(Enqueue(s, q), from)
  {
    hide InvFrom, Aligned, Enqueue;
    InvSlots(s, from);
    assert Appendable(s, q);
    hide *;
    EnqueueKeeps(s, from, q);
  }
}
