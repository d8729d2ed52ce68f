// The verdict cache within one epoch of the lists: what a DNS cache record memorises is
// what the list chain would answer (src/dnsmasq_interface.c, src/datastructure.c).
module Epoch {
  import opened Records
  import opened Interning
  import opened OverTime
  import opened Blocking
  import opened Hashing
  import opened Store
  import opened Conservation
  import opened Collection
  import opened Hooks
  import opened Runs

  ghost predicate Named(s: State, k: CacheKey) {
    k.domainID in s.domains.live && k.clientID in s.clients.live
  }

  /** What the uncached chain says about a record's domain, client and type. */
  ghost function Chain(s: State, lists: Lists, cfg: Config, k: CacheKey): Decision
    requires Named(s, k)
  {
    Decide(lists, cfg, s.domains.live[k.domainID].key, s.clients.live[k.clientID].key, k.qtype, false)
  }

  ghost predicate VerdictOk(s: State, lists: Lists, cfg: Config, c: nat)
    requires c in s.caches.live
  {
    Named(s, s.caches.live[c].key) ==>
      Agrees(s.caches.live[c].data.verdict, Chain(s, lists, cfg, s.caches.live[c].key))
  }

  // A query dnsmasq was let go on with is not blocked by the chain, and the record
  // remembers whether the chain allows it
  ghost predicate ReleasedOk(s: State, lists: Lists, cfg: Config, q: Query) {
    q.released && q.cacheID in s.caches.live && Named(s, s.caches.live[q.cacheID].key) ==>
      var d := Chain(s, lists, cfg, s.caches.live[q.cacheID].key);
      !d.block && s.caches.live[q.cacheID].data.verdict.allowed == d.allowed
  }

  ghost predicate EpochInv(s: State, lists: Lists, cfg: Config) {
    && (forall c :: c in s.caches.live ==> VerdictOk(s, lists, cfg, c))
    && (forall i :: IsLive(s, i) ==> ReleasedOk(s, lists, cfg, s.queries[i]))
  }

  // ---- Steps that leave verdicts alone ----

  ghost predicate SameNames(s: State, r: State) {
    && (forall d :: d in r.domains.live ==> d in s.domains.live && r.domains.live[d].key == s.domains.live[d].key)
    && (forall c :: c in r.clients.live ==> c in s.clients.live && r.clients.live[c].key == s.clients.live[c].key)
  }

  ghost predicate SameRecord(a: Rec<CacheKey, CacheData>, b: Rec<CacheKey, CacheData>) {
    a.key == b.key && a.data.verdict == b.data.verdict
  }

  // Records and queries may go, those that stay keep names, verdicts and release flags
  ghost predicate Quiet(s: State, r: State) {
    && SameNames(s, r)
    && (forall c :: c in r.caches.live ==> c in s.caches.live && SameRecord(s.caches.live[c], r.caches.live[c]))
    && (forall i :: IsLive(r, i) ==>
         exists j :: IsLive(s, j) && s.queries[j].cacheID == r.queries[i].cacheID && s.queries[j].released == r.queries[i].released)
  }

  lemma QuietEpoch(s: State, r: State, lists: Lists, cfg: Config)
    requires EpochInv(s, lists, cfg) && Quiet(s, r)
    ensures EpochInv(r, lists, cfg)
  {
    forall c | c in r.caches.live
      ensures VerdictOk(r, lists, cfg, c)
    {
      assert VerdictOk(s, lists, cfg, c);
    }
    forall i | IsLive(r, i)
      ensures ReleasedOk(r, lists, cfg, r.queries[i])
    {
      var j :| IsLive(s, j) && s.queries[j].cacheID == r.queries[i].cacheID && s.queries[j].released == r.queries[i].released;
      assert ReleasedOk(s, lists, cfg, s.queries[j]);
    }
  }

  // A hook that touches neither records nor release flags
  lemma FrameQuiet(s: State, r: State)
    requires Stays(s, r) && r.caches == s.caches
    requires forall i :: 0 <= i < |s.queries| ==> r.queries[i].released == s.queries[i].released
    ensures Quiet(s, r)
  {
    forall i | IsLive(r, i)
      ensures exists j :: IsLive(s, j) && s.queries[j].cacheID == r.queries[i].cacheID && s.queries[j].released == r.queries[i].released
    {
      assert IsLive(s, i) && SameIdentity(s.queries[i], r.queries[i]);
    }
  }

  // ---- Memorising ----

  // Only the verdict of record c differs, and no release flag
  ghost predicate Remembers(s: State, r: State, c: nat, v: Verdict) {
    && Stays(s, r)
    && (forall i :: 0 <= i < |s.queries| ==> r.queries[i].released == s.queries[i].released)
    && (forall d :: d in s.caches.live && d != c ==> r.caches.live[d].data.verdict == s.caches.live[d].data.verdict)
    && c in s.caches.live && r.caches.live[c].data.verdict == v
  }

  lemma RemembersEpoch(s: State, r: State, c: nat, v: Verdict, lists: Lists, cfg: Config)
    requires EpochInv(s, lists, cfg) && Remembers(s, r, c, v)
    requires v.allowed == s.caches.live[c].data.verdict.allowed
    requires Named(s, s.caches.live[c].key) ==> Agrees(v, Chain(s, lists, cfg, s.caches.live[c].key))
    ensures EpochInv(r, lists, cfg)
  {
    hide Agrees, Decide;
    forall d | d in r.caches.live
      ensures VerdictOk(r, lists, cfg, d)
    {
      assert VerdictOk(s, lists, cfg, d);
    }
    forall i | IsLive(r, i)
      ensures ReleasedOk(r, lists, cfg, r.queries[i])
    {
      assert ReleasedOk(s, lists, cfg, s.queries[i]) && SameIdentity(s.queries[i], r.queries[i]);
    }
  }

  lemma StatusRemembers(s: State, i: nat, st: Status, cfg: Config)
    requires LiveQuery(s, i) && Inv(s) && IsLive(s, i) && st != s.queries[i].status
    ensures Remembers(s, SetStatus(s, i, st, cfg), s.queries[i].cacheID,
              Memorised(s.caches.live[s.queries[i].cacheID].data.verdict, st, s.queries[i].timestamp, cfg.ttl))
  {
    hide Inv, InvFrom, Good, Fetchable, Stays, SetStatus, Memorised;
    LiveFetchable(s, i);
    StatusGood(s, s.removed, i, st, cfg);
    GoodStays(s, s.removed, i, SetStatus(s, i, st, cfg));
    SetStatusVerdicts(s, i, st, cfg);
  }

  lemma InvLiveQuery(s: State, i: nat)
    requires Inv(s) && IsLive(s, i)
    ensures LiveQuery(s, i)
  {
    InvQuery(s, s.removed, i);
    hide InvFrom, Aligned;
  }

  lemma SetStatusVerdicts(s: State, i: nat, st: Status, cfg: Config)
    requires LiveQuery(s, i) && st != s.queries[i].status
    ensures var r, c := SetStatus(s, i, st, cfg), s.queries[i].cacheID;
            && |r.queries| == |s.queries| && r.caches.live.Keys == s.caches.live.Keys
            && (forall j :: 0 <= j < |s.queries| ==> r.queries[j].released == s.queries[j].released)
            && (forall d :: d in s.caches.live && d != c ==> r.caches.live[d] == s.caches.live[d])
            && r.caches.live[c].data.verdict == Memorised(s.caches.live[c].data.verdict, st, s.queries[i].timestamp, cfg.ttl)
  {
    hide GetId, Restatus, Memorised;
  }

  ghost predicate LiveQuery(s: State, i: nat) {
    |s.slots| == OVERTIME_SLOTS && i < |s.queries| && s.queries[i].cacheID in s.caches.live
  }

  lemma GoodStays(s: State, from: nat, i: nat, r: State)
    requires Good(s, from, i, r)
    ensures Stays(s, r)
  {
  }

  // The status a query may take without spoiling its record
  ghost predicate Fits(s: State, i: nat, st: Status, lists: Lists, cfg: Config) {
    LiveQuery(s, i) ==>
      var c := s.caches.live[s.queries[i].cacheID];
      Intermittent(st) || (Named(s, c.key) ==> Agrees(Verdict(st, 0, c.data.verdict.allowed), Chain(s, lists, cfg, c.key)))
  }

  lemma StatusEpoch(s: State, i: nat, st: Status, lists: Lists, cfg: Config)
    requires LiveQuery(s, i)
    requires Inv(s) && IsLive(s, i) && EpochInv(s, lists, cfg) && Fits(s, i, st, lists, cfg)
    ensures var r := SetStatus(s, i, st, cfg); Inv(r) && EpochInv(r, lists, cfg)
  {
    hide *;
    LiveFetchable(s, i);
    LiveBounds(s, i);
    StatusGood(s, s.removed, i, st, cfg);
    GoodInv(s, i, SetStatus(s, i, st, cfg));
    if st != s.queries[i].status {
      MemorisedFits(s, i, st, lists, cfg);
      StatusRemembers(s, i, st, cfg);
      var c := s.queries[i].cacheID;
      var v := Memorised(s.caches.live[c].data.verdict, st, s.queries[i].timestamp, cfg.ttl);
      RemembersEpoch(s, SetStatus(s, i, st, cfg), c, v, lists, cfg);
    } else {
      SetStatusSame(s, i, cfg);
    }
  }

  lemma LiveBounds(s: State, i: nat)
    requires LiveQuery(s, i) && IsLive(s, i)
    ensures s.removed <= i < |s.queries| && |s.slots| == OVERTIME_SLOTS && s.queries[i].cacheID in s.caches.live
  {
  }

  // A status that fits leaves the record in agreement with the chain
  lemma MemorisedFits(s: State, i: nat, st: Status, lists: Lists, cfg: Config)
    requires LiveQuery(s, i) && EpochInv(s, lists, cfg) && Fits(s, i, st, lists, cfg)
    ensures var r := s.caches.live[s.queries[i].cacheID];
            var v := Memorised(r.data.verdict, st, s.queries[i].timestamp, cfg.ttl);
            && v.allowed == r.data.verdict.allowed
            && (Named(s, r.key) ==> Agrees(v, Chain(s, lists, cfg, r.key)))
  {
    hide EpochInv, Decide, Chain, Named;
    EpochVerdict(s, s.queries[i].cacheID, lists, cfg);
  }

  lemma EpochVerdict(s: State, c: nat, lists: Lists, cfg: Config)
    requires EpochInv(s, lists, cfg) && c in s.caches.live
    ensures VerdictOk(s, lists, cfg, c)
  {
    hide VerdictOk;
  }

  // A released query may become forwarded, cached or blocked upstream
  lemma ReleasedFits(s: State, i: nat, st: Status, lists: Lists, cfg: Config)
    requires IsLive(s, i) && EpochInv(s, lists, cfg) && s.queries[i].released
    requires st == Forwarded || IsCached(st) || IsExternal(st)
    ensures Fits(s, i, st, lists, cfg)
  {
    assert ReleasedOk(s, lists, cfg, s.queries[i]);
    hide Decide;
  }

  lemma InvIs(s: State)
    requires Inv(s)
    ensures InvFrom(s, s.removed)
  {
    hide InvFrom;
  }

  // ---- Hooks ----

  // Both invariants, and the query's own release flag
  ghost predicate Sound(s: State, i: nat, r: State, lists: Lists, cfg: Config) {
    && Inv(r) && EpochInv(r, lists, cfg) && IsLive(r, i) && LiveQuery(r, i)
    && IsLive(s, i) && r.queries[i].released == s.queries[i].released
    && r.queries[i].qtype == s.queries[i].qtype
  }

  ghost predicate SameRelease(s: State, r: State) {
    && |r.queries| == |s.queries| && r.caches == s.caches
    && forall j :: 0 <= j < |s.queries| ==> r.queries[j].released == s.queries[j].released
  }

  lemma QuietHook(s: State, i: nat, r: State, lists: Lists, cfg: Config)
    requires Inv(s) && EpochInv(s, lists, cfg) && IsLive(s, i)
    requires Good(s, s.removed, i, r) && SameRelease(s, r)
    ensures Sound(s, i, r, lists, cfg)
  {
    hide Inv, EpochInv, Good, Quiet, Stays;
    GoodStays(s, s.removed, i, r);
    GoodInv(s, i, r);
    GoodBasics(s, s.removed, i, r);
    FrameQuiet(s, r);
    QuietEpoch(s, r, lists, cfg);
    InvLiveQuery(r, i);
  }

  lemma SoundStatus(s: State, i: nat, r: State, st: Status, lists: Lists, cfg: Config)
    requires Sound(s, i, r, lists, cfg) && Fits(r, i, st, lists, cfg)
    ensures Sound(s, i, SetStatus(r, i, st, cfg), lists, cfg)
  {
    hide Inv, EpochInv, Fits;
    StatusEpoch(r, i, st, lists, cfg);
    SetStatusBasics(r, i, st, cfg);
    InvLiveQuery(SetStatus(r, i, st, cfg), i);
  }

  lemma SetStatusBasics(s: State, i: nat, st: Status, cfg: Config)
    requires LiveQuery(s, i)
    ensures var r := SetStatus(s, i, st, cfg);
            && r.queries == s.queries[i := s.queries[i].(status := st)] && r.removed == s.removed
  {
    hide GetId, Restatus, Memorised;
  }

  lemma SoundReply(s: State, i: nat, r: State, x: Reply, lists: Lists, cfg: Config)
    requires Sound(s, i, r, lists, cfg)
    ensures Sound(s, i, SetReply(r, i, x), lists, cfg)
  {
    hide Inv, EpochInv, InvFrom, Good;
    InvIs(r);
    ReplyGood(r, r.removed, i, x);
    QuietHook(r, i, SetReply(r, i, x), lists, cfg);
  }

  lemma SoundCompleted(s: State, i: nat, r: State, lists: Lists, cfg: Config)
    requires Sound(s, i, r, lists, cfg)
    ensures Sound(s, i, Completed(r, i), lists, cfg)
  {
    hide Inv, EpochInv, InvFrom, Good;
    InvIs(r);
    FlagsGood(r, r.removed, i, r.queries[i].(complete := true));
    QuietHook(r, i, Completed(r, i), lists, cfg);
  }

  lemma SoundUnanswered(s: State, i: nat, r: State, lists: Lists, cfg: Config)
    requires Sound(s, i, r, lists, cfg)
    ensures Sound(s, i, Unanswered(r, i), lists, cfg)
  {
    hide Inv, EpochInv, InvFrom, Good;
    InvIs(r);
    FlagsGood(r, r.removed, i, r.queries[i].(answered := false));
    QuietHook(r, i, Unanswered(r, i), lists, cfg);
  }

  lemma SoundRefl(s: State, i: nat, lists: Lists, cfg: Config)
    requires Inv(s) && EpochInv(s, lists, cfg) && IsLive(s, i)
    ensures Sound(s, i, s, lists, cfg)
  {
    hide Inv, EpochInv;
    InvLiveQuery(s, i);
  }

  lemma SoundReleasedStatus(s: State, i: nat, r: State, st: Status, lists: Lists, cfg: Config)
    requires Sound(s, i, r, lists, cfg) && s.queries[i].released
    requires st == Forwarded || IsCached(st) || IsExternal(st)
    ensures Sound(s, i, SetStatus(r, i, st, cfg), lists, cfg)
  {
    hide Inv, EpochInv, Fits;
    ReleasedFits(r, i, st, lists, cfg);
    SoundStatus(s, i, r, st, lists, cfg);
  }

  lemma ForwardSound(s: State, i: nat, ip: string, port: nat, lists: Lists, cfg: Config)
    requires Inv(s) && EpochInv(s, lists, cfg) && IsLive(s, i) && s.queries[i].released && LiveQuery(s, i)
    ensures Sound(s, i, ForwardTo(s, i, ip, port, cfg), lists, cfg)
  {
    hide Inv, EpochInv, InvFrom, Good, Sound, SetStatus, UpstreamIndex, LiveQuery;
    InvIs(s);
    SoundRefl(s, i, lists, cfg);
    InvSlots(s, s.removed);
    if !s.queries[i].complete {
      var s0 := FindUpstream(s, ip, port);
      var u := UpstreamIndex(s.upstreams, ip, port);
      FindUpstreamKeeps(s, s.removed, ip, port);
      FindUpstreamGood(s, s.removed, i, ip, port);
      var s1 := CountAt(s0, i, u);
      CountAtGood(s0, s.removed, i, u);
      GoodTrans(s, s.removed, i, s0, s1);
      QuietHook(s, i, s1, lists, cfg);
      SoundCompleted(s, i, s1, lists, cfg);
      SoundUnanswered(s, i, s1, lists, cfg);
      var s2 := if s.queries[i].status == Cache then Unanswered(s1, i) else Completed(s1, i);
      SoundReleasedStatus(s, i, s2, Forwarded, lists, cfg);
    }
  }

  lemma BlockedSound(s: State, i: nat, st: Status, lists: Lists, cfg: Config)
    requires Inv(s) && EpochInv(s, lists, cfg) && IsLive(s, i) && LiveQuery(s, i)
    requires s.queries[i].released && IsExternal(st)
    ensures Sound(s, i, QueryBlocked(s, i, st, cfg), lists, cfg)
  {
    hide Inv, EpochInv, InvFrom, Good, Sound, SetStatus, LiveQuery;
    InvIs(s);
    SoundRefl(s, i, lists, cfg);
    InvSlots(s, s.removed);
    var q := s.queries[i];
    if q.status == Forwarded && q.counted {
      HandBackGood(s, s.removed, i);
      QuietHook(s, i, HandBack(s, i), lists, cfg);
      SoundReleasedStatus(s, i, HandBack(s, i), st, lists, cfg);
    } else if !IsBlocked(q.status) {
      SoundReleasedStatus(s, i, s, st, lists, cfg);
    }
  }

  lemma FirstReplySound(s: State, i: nat, a: Answer, lists: Lists, cfg: Config)
    requires Inv(s) && EpochInv(s, lists, cfg) && IsLive(s, i) && LiveQuery(s, i)
    requires s.queries[i].released || (Cached(a, s.queries[i].qtype) && IsBlocked(s.queries[i].status))
    ensures Sound(s, i, FirstReply(s, i, a, cfg), lists, cfg)
  {
    hide Inv, EpochInv, Sound, SetStatus, SetReply, Completed, LiveQuery, IsBlocked;
    SoundRefl(s, i, lists, cfg);
    SoundSlots(s, i, s, lists, cfg);
    var qs := if a.stale then CacheStale else Cache;
    SoundReply(s, i, s, a.reply, lists, cfg);
    SoundSlots(s, i, SetReply(s, i, a.reply), lists, cfg);
    SoundCompleted(s, i, SetReply(s, i, a.reply), lists, cfg);
    if s.queries[i].released {
      SoundReleasedStatus(s, i, s, qs, lists, cfg);
      SoundSlots(s, i, SetStatus(s, i, qs, cfg), lists, cfg);
      SoundReply(s, i, SetStatus(s, i, qs, cfg), a.reply, lists, cfg);
      SoundSlots(s, i, SetReply(SetStatus(s, i, qs, cfg), i, a.reply), lists, cfg);
      SoundCompleted(s, i, SetReply(SetStatus(s, i, qs, cfg), i, a.reply), lists, cfg);
      SoundReleasedStatus(s, i, SetReply(s, i, a.reply), Cache, lists, cfg);
      SoundSlots(s, i, SetStatus(SetReply(s, i, a.reply), i, Cache, cfg), lists, cfg);
      SoundCompleted(s, i, SetStatus(SetReply(s, i, a.reply), i, Cache, cfg), lists, cfg);
    }
  }

  lemma SoundSlots(s: State, i: nat, r: State, lists: Lists, cfg: Config)
    requires Sound(s, i, r, lists, cfg)
    ensures |r.slots| == OVERTIME_SLOTS && i < |r.queries|
  {
    hide Inv, EpochInv;
  }

  lemma UpdateUpstreamQuiet(s: State, i: nat, server: Option<(string, nat)>)
    requires i < |s.queries|
    ensures SameRelease(s, UpdateUpstream(s, i, server))
    ensures UpdateUpstream(s, i, server).queries[i].status == s.queries[i].status
    ensures UpdateUpstream(s, i, server).queries[i].qtype == s.queries[i].qtype
  {
    hide UpstreamIndex;
  }

  lemma RespondSound(s: State, i: nat, a: Answer, lists: Lists, cfg: Config)
    requires Inv(s) && EpochInv(s, lists, cfg) && IsLive(s, i) && LiveQuery(s, i)
    requires s.queries[i].released || (Cached(a, s.queries[i].qtype) && IsBlocked(s.queries[i].status))
    ensures Inv(ReplyTo(s, i, a, cfg)) && EpochInv(ReplyTo(s, i, a, cfg), lists, cfg)
  {
    hide Inv, EpochInv, InvFrom, Good, UpdateUpstream, FirstReply, Cached, IsBlocked;
    InvIs(s);
    UpdateUpstreamGood(s, s.removed, i, a.server);
    UpdateUpstreamQuiet(s, i, a.server);
    GoodRefl(s, s.removed, i);
    var s1 := if Cached(a, s.queries[i].qtype) then s else UpdateUpstream(s, i, a.server);
    GoodBasics(s, s.removed, i, s1);
    FlagsGood(s1, s.removed, i, s1.queries[i].(answered := true));
    GoodTrans(s, s.removed, i, s1, Answered(s1, i));
    QuietHook(s, i, Answered(s1, i), lists, cfg);
    if s.queries[i].reply == NoReply {
      FirstReplySound(Answered(s1, i), i, a, lists, cfg);
    }
  }

  // ---- The blocking check ----

  // A query right after it arrived
  ghost predicate Unchecked(s: State, i: nat) {
    IsLive(s, i) && s.queries[i].status == Unknown && !s.queries[i].released && !s.queries[i].allowed
  }

  // What a check of query i leaves behind in its record
  ghost predicate Decided(s: State, r: State, i: nat, v: Verdict, released: bool) {
    && i < |s.queries| == |r.queries| && r.caches.live.Keys == s.caches.live.Keys
    && s.queries[i].cacheID in s.caches.live
    && (forall j :: 0 <= j < |s.queries| && j != i ==> r.queries[j].released == s.queries[j].released)
    && (forall d :: d in s.caches.live && d != s.queries[i].cacheID ==> r.caches.live[d].data.verdict == s.caches.live[d].data.verdict)
    && r.caches.live[s.queries[i].cacheID].data.verdict == v
    && r.queries[i].released == released
  }

  lemma DecidedEpoch(s: State, r: State, i: nat, v: Verdict, released: bool, lists: Lists, cfg: Config)
    requires EpochInv(s, lists, cfg) && IsLive(s, i) && Stays(s, r) && Decided(s, r, i, v, released)
    requires var k := s.caches.live[s.queries[i].cacheID].key;
             && Named(s, k)
             && Agrees(v, Chain(s, lists, cfg, k))
             && (Chain(s, lists, cfg, k).block ==> !released)
             && (Chain(s, lists, cfg, k).block || v.allowed == Chain(s, lists, cfg, k).allowed)
    ensures EpochInv(r, lists, cfg)
  {
    hide Agrees, Decide;
    forall c | c in r.caches.live
      ensures VerdictOk(r, lists, cfg, c)
    {
      assert VerdictOk(s, lists, cfg, c);
    }
    forall j | IsLive(r, j)
      ensures ReleasedOk(r, lists, cfg, r.queries[j])
    {
      assert ReleasedOk(s, lists, cfg, s.queries[j]) && SameIdentity(s.queries[j], r.queries[j]);
    }
  }

  // A verdict memorised again is unchanged
  lemma MemorisedAgain(v: Verdict, at: real, ttl: nat)
    ensures Memorised(v, v.blocking, at, ttl) == v
  {
  }

  // Blocking an unchecked query
  lemma BlockUnchecked(s: State, i: nat, st: Status, cfg: Config)
    requires LiveQuery(s, i) && s.queries[i].status == Unknown && st != Unknown
    ensures var r, c := QueryBlocked(s, i, st, cfg), s.queries[i].cacheID;
            && r.queries == s.queries[i := s.queries[i].(status := st)]
            && r.caches.live.Keys == s.caches.live.Keys
            && (forall d :: d in s.caches.live && d != c ==> r.caches.live[d] == s.caches.live[d])
            && r.caches.live[c].data.verdict == Memorised(s.caches.live[c].data.verdict, st, s.queries[i].timestamp, cfg.ttl)
            && r.caches.live[c].data.cname == s.caches.live[c].data.cname
  {
    hide GetId, Restatus, Memorised;
  }

  // The three outcomes of a check of an unchecked query whose record agrees with the chain
  // What applying the remembered verdict v must amount to, decision d being the chain's
  ghost predicate Outcome(s: State, i: nat, a: (State, bool), v: Verdict, d: Decision) {
    && i < |s.queries| && i < |a.0.queries|
    && Decided(s, a.0, i, v, s.queries[i].released)
    && (d.block ==> a.1 && a.0.queries[i].status == d.status)
    && (!a.1 ==> !d.block)
    && (a.1 && !IsExternal(v.blocking) ==> d.block)
    && (!IsExternal(v.blocking) ==> a.0.queries[i].allowed == (!d.block && d.allowed))
  }

  lemma BlockedOutcome(s: State, i: nat, d: Decision, cfg: Config)
    requires LiveQuery(s, i) && s.queries[i].status == Unknown && !s.queries[i].allowed
    requires Agrees(s.caches.live[s.queries[i].cacheID].data.verdict, d)
    requires var st := s.caches.live[s.queries[i].cacheID].data.verdict.blocking;
             IsListed(st) || st == SpecialDomain || IsExternal(st)
    ensures Outcome(s, i, ApplyVerdict(s, i, cfg), s.caches.live[s.queries[i].cacheID].data.verdict, d)
  {
    var c := s.caches.live[s.queries[i].cacheID].data;
    MemorisedAgain(c.verdict, s.queries[i].timestamp, cfg.ttl);
    BlockUnchecked(s, i, c.verdict.blocking, cfg);
    hide QueryBlocked, Memorised, HoldCname;
  }

  lemma KnownOutcome(s: State, i: nat, d: Decision, cfg: Config)
    requires LiveQuery(s, i) && s.queries[i].status == Unknown && !s.queries[i].allowed
    requires s.caches.live[s.queries[i].cacheID].data.verdict.blocking != Unknown
    requires Agrees(s.caches.live[s.queries[i].cacheID].data.verdict, d)
    ensures Outcome(s, i, ApplyVerdict(s, i, cfg), s.caches.live[s.queries[i].cacheID].data.verdict, d)
  {
    var st := s.caches.live[s.queries[i].cacheID].data.verdict.blocking;
    if IsListed(st) || st == SpecialDomain || IsExternal(st) {
      hide ApplyVerdict, Outcome, Agrees, IsListed, IsExternal;
      BlockedOutcome(s, i, d, cfg);
    }
  }

  lemma ChainOutcome(s: State, i: nat, d: Decision, cfg: Config)
    requires LiveQuery(s, i) && s.queries[i].status == Unknown
    requires d.dbOkay && (d.block ==> d.status in {SpecialDomain, Denylist, Gravity, Regex})
    requires s.caches.live[s.queries[i].cacheID].data.verdict.blocking == Unknown
    ensures var a := ApplyDecision(s, i, d, cfg);
            && i < |a.0.queries| && s.queries[i].cacheID in a.0.caches.live
            && a.1 == d.block
            && a.0.queries[i].allowed == d.allowed
            && (d.block ==> a.0.queries[i].status == d.status)
            && var v := a.0.caches.live[s.queries[i].cacheID].data.verdict;
               && Decided(s, a.0, i, v, s.queries[i].released)
               && (d.block ==> v.blocking == d.status)
               && (!d.block ==> v.blocking == Unknown && v.allowed == d.allowed)
  {
    var k := s.queries[i].cacheID;
    var c := s.caches.live[k].data;
    var s1 := WithQuery(s, i, s.queries[i].(allowed := d.allowed));
    if d.block {
      var s2 := if d.status == SpecialDomain then WithCache(s1, k, c.(verdict := c.verdict.(blocking := SpecialDomain))) else s1;
      BlockUnchecked(s2, i, d.status, cfg);
      hide QueryBlocked;
    }
  }

  /** The check of an arrived query: it blocks exactly if the chain does, unless the record
      remembers a block by an upstream server, and then the chain does not block. */
  ghost predicate Faithful(s: State, i: nat, r: (State, bool), d: Decision, v: Verdict) {
    && i < |r.0.queries|
    && (d.block ==> r.1 && r.0.queries[i].status == d.status)
    && (!IsExternal(v.blocking) ==> r.1 == d.block && r.0.queries[i].allowed == (!d.block && d.allowed))
    && (!r.1 ==> !d.block)
  }

  // The state a check works on: the record's verdict is brought up to date first
  ghost function Refreshed(s: State, i: nat, cfg: Config): State
    requires LiveQuery(s, i)
  {
    var k := s.queries[i].cacheID;
    var c := s.caches.live[k].data;
    WithCache(s, k, c.(verdict := Current(c.verdict, s.queries[i].timestamp, cfg.ttl)))
  }

  ghost predicate Checkable(s: State, i: nat) {
    && LiveQuery(s, i) && s.queries[i].clientID in s.clients.live && s.queries[i].domainID in s.domains.live
    && s.caches.live[s.queries[i].cacheID].key == CacheKey(s.queries[i].domainID, s.queries[i].clientID, s.queries[i].qtype)
    && s.queries[i].status == Unknown && !s.queries[i].allowed
  }

  ghost function ChainOf(s: State, i: nat, lists: Lists, cfg: Config): Decision
    requires Checkable(s, i)
  {
    Chain(s, lists, cfg, s.caches.live[s.queries[i].cacheID].key)
  }

  ghost function CheckOf(s: State, i: nat, lists: Lists, cfg: Config): (State, bool)
    requires Checkable(s, i)
  {
    var q := s.queries[i];
    CheckBlocking(s, i, s.domains.live[q.domainID].key, q.domainID, lists, cfg)
  }

  lemma CheckIs(s: State, i: nat, lists: Lists, cfg: Config)
    requires Checkable(s, i) && cfg.enabled
    ensures var s1 := Refreshed(s, i, cfg);
            && LiveQuery(s1, i)
            && CheckOf(s, i, lists, cfg) ==
                 if s1.caches.live[s.queries[i].cacheID].data.verdict.blocking != Unknown then ApplyVerdict(s1, i, cfg)
                 else ApplyDecision(s1, i, ChainOf(s, i, lists, cfg), cfg)
  {
    hide ApplyVerdict, ApplyDecision, Decide, Current;
  }

  lemma RefreshDecided(s: State, i: nat, r: State, v: Verdict, released: bool, cfg: Config)
    requires LiveQuery(s, i) && Decided(Refreshed(s, i, cfg), r, i, v, released)
    ensures Decided(s, r, i, v, released)
  {
    hide Current;
  }

  lemma RefreshAgrees(v: Verdict, at: real, ttl: nat, d: Decision)
    requires Agrees(v, d)
    ensures Agrees(Current(v, at, ttl), d)
  {
  }

  // What the check leaves behind agrees with the chain
  ghost predicate Settled(s: State, i: nat, r: State, d: Decision)
    requires Checkable(s, i)
  {
    var k := s.queries[i].cacheID;
    && k in r.caches.live
    && var v := r.caches.live[k].data.verdict;
       && Decided(s, r, i, v, s.queries[i].released)
       && Agrees(v, d) && (d.block || v.allowed == d.allowed)
  }

  lemma KnownCheck(s: State, i: nat, lists: Lists, cfg: Config)
    requires Checkable(s, i) && cfg.enabled && VerdictOk(s, lists, cfg, s.queries[i].cacheID)
    requires Refreshed(s, i, cfg).caches.live[s.queries[i].cacheID].data.verdict.blocking != Unknown
    ensures var r, d := CheckOf(s, i, lists, cfg), ChainOf(s, i, lists, cfg);
            && Settled(s, i, r.0, d)
            && Faithful(s, i, r, d, Refreshed(s, i, cfg).caches.live[s.queries[i].cacheID].data.verdict)
  {
    var s1, d, k := Refreshed(s, i, cfg), ChainOf(s, i, lists, cfg), s.queries[i].cacheID;
    CheckIs(s, i, lists, cfg);
    RefreshAgrees(s.caches.live[k].data.verdict, s.queries[i].timestamp, cfg.ttl, d);
    hide ApplyVerdict, CheckOf, ChainOf, Current;
    KnownOutcome(s1, i, d, cfg);
    hide Decided;
    RefreshDecided(s, i, ApplyVerdict(s1, i, cfg).0, s1.caches.live[k].data.verdict, s.queries[i].released, cfg);
    assert ApplyVerdict(s1, i, cfg).0.caches.live.Keys == s1.caches.live.Keys by {
      KnownOutcome(s1, i, d, cfg);
      DecidedKeys(s1, ApplyVerdict(s1, i, cfg).0, i, s1.caches.live[k].data.verdict, s.queries[i].released);
    }
  }

  lemma DecidedKeys(s: State, r: State, i: nat, v: Verdict, released: bool)
    requires Decided(s, r, i, v, released)
    ensures r.caches.live.Keys == s.caches.live.Keys && s.queries[i].cacheID in r.caches.live
    ensures r.caches.live[s.queries[i].cacheID].data.verdict == v
  {
  }

  lemma ChainMeans(s: State, i: nat, lists: Lists, cfg: Config)
    requires Checkable(s, i) && ListsAvailable(lists)
    ensures var d := ChainOf(s, i, lists, cfg);
            && d.dbOkay && !(d.block && d.allowed)
            && (d.block ==> d.status in {SpecialDomain, Denylist, Gravity, Regex})
  {
    var q := s.queries[i];
    hide Decide, Blocks, Allows;
    DecideMeaning(lists, cfg, s.domains.live[q.domainID].key, s.clients.live[q.clientID].key, q.qtype);
  }

  lemma ChainCheck(s: State, i: nat, lists: Lists, cfg: Config)
    requires Checkable(s, i) && cfg.enabled && ListsAvailable(lists)
    requires Refreshed(s, i, cfg).caches.live[s.queries[i].cacheID].data.verdict.blocking == Unknown
    ensures var r, d := CheckOf(s, i, lists, cfg), ChainOf(s, i, lists, cfg);
            && Settled(s, i, r.0, d)
            && Faithful(s, i, r, d, Refreshed(s, i, cfg).caches.live[s.queries[i].cacheID].data.verdict)
  {
    hide ApplyDecision, CheckOf, ChainOf, Current, ListsAvailable, Decided;
    var s1, d, k := Refreshed(s, i, cfg), ChainOf(s, i, lists, cfg), s.queries[i].cacheID;
    CheckIs(s, i, lists, cfg);
    ChainMeans(s, i, lists, cfg);
    ChainOutcome(s1, i, d, cfg);
    var a := ApplyDecision(s1, i, d, cfg).0;
    RefreshDecided(s, i, a, a.caches.live[k].data.verdict, s.queries[i].released, cfg);
  }

  /** The check of an arrived query, whatever its record remembers. */
  lemma CheckOutcome(s: State, i: nat, lists: Lists, cfg: Config)
    requires Checkable(s, i) && cfg.enabled && ListsAvailable(lists) && VerdictOk(s, lists, cfg, s.queries[i].cacheID)
    ensures var r, d := CheckOf(s, i, lists, cfg), ChainOf(s, i, lists, cfg);
            && Settled(s, i, r.0, d)
            && Faithful(s, i, r, d, Current(s.caches.live[s.queries[i].cacheID].data.verdict, s.queries[i].timestamp, cfg.ttl))
  {
    hide CheckOf, ChainOf, Settled, Faithful, Current, ListsAvailable, VerdictOk;
    if Refreshed(s, i, cfg).caches.live[s.queries[i].cacheID].data.verdict.blocking != Unknown {
      KnownCheck(s, i, lists, cfg);
    } else {
      ChainCheck(s, i, lists, cfg);
    }
  }

  lemma InvCheckable(s: State, i: nat)
    requires Inv(s) && Unchecked(s, i)
    ensures Checkable(s, i) && Fetchable(s, i)
  {
    LiveFetchable(s, i);
    hide InvFrom, Aligned;
  }

  lemma FilterIs(s: State, i: nat, lists: Lists, cfg: Config)
    requires Checkable(s, i) && i < |CheckOf(s, i, lists, cfg).0.queries|
    ensures var c := CheckOf(s, i, lists, cfg);
            Filter(s, i, lists, cfg) == (WithQuery(c.0, i, c.0.queries[i].(released := !c.1)), c.1)
  {
    hide CheckBlocking;
  }

  lemma FilterDecided(s: State, i: nat, lists: Lists, cfg: Config)
    requires Checkable(s, i) && !s.queries[i].released && cfg.enabled && ListsAvailable(lists)
    requires VerdictOk(s, lists, cfg, s.queries[i].cacheID)
    ensures var r, d := Filter(s, i, lists, cfg).0, ChainOf(s, i, lists, cfg);
            && s.queries[i].cacheID in r.caches.live
            && var v := r.caches.live[s.queries[i].cacheID].data.verdict;
               && i < |r.queries| && Decided(s, r, i, v, r.queries[i].released)
               && Agrees(v, d) && (d.block || v.allowed == d.allowed) && (d.block ==> !r.queries[i].released)
  {
    CheckOutcome(s, i, lists, cfg);
    hide CheckOf, ChainOf, Filter, ListsAvailable, VerdictOk, Current;
    FilterIs(s, i, lists, cfg);
  }

  lemma CheckEpoch(s: State, i: nat, lists: Lists, cfg: Config)
    requires Inv(s) && EpochInv(s, lists, cfg) && Unchecked(s, i) && cfg.enabled && ListsAvailable(lists)
    ensures Fetchable(s, i) && EpochInv(Filter(s, i, lists, cfg).0, lists, cfg)
  {
    InvCheckable(s, i);
    assert VerdictOk(s, lists, cfg, s.queries[i].cacheID);
    var r := Filter(s, i, lists, cfg).0;
    hide Inv, EpochInv, Filter, ListsAvailable, Decided, Agrees, Decide, Stays, Good, VerdictOk;
    InvIs(s);
    FilterGood(s, s.removed, i, lists, cfg);
    GoodStays(s, s.removed, i, r);
    FilterDecided(s, i, lists, cfg);
    DecidedEpoch(s, r, i, r.caches.live[s.queries[i].cacheID].data.verdict, r.queries[i].released, lists, cfg);
  }

  // ---- Arrivals ----

  // Records may be added, without a verdict; the last query may be new and unreleased
  ghost predicate Extended(s: State, r: State) {
    && (forall d :: d in s.domains.live ==> d in r.domains.live && r.domains.live[d].key == s.domains.live[d].key)
    && (forall c :: c in s.clients.live ==> c in r.clients.live && r.clients.live[c].key == s.clients.live[c].key)
    && s.caches.live.Keys <= r.caches.live.Keys
    && (forall c :: c in r.caches.live ==>
         if c in s.caches.live then SameRecord(s.caches.live[c], r.caches.live[c])
         else r.caches.live[c].data.verdict == NoVerdict)
    && r.removed == s.removed && |s.queries| <= |r.queries|
    && (forall i :: 0 <= i < |s.queries| ==> r.queries[i] == s.queries[i])
    && (forall i :: |s.queries| <= i < |r.queries| ==> !r.queries[i].released)
  }

  lemma ExtendedEpoch(s: State, r: State, lists: Lists, cfg: Config)
    requires EpochInv(s, lists, cfg) && CachesOk(s) && Extended(s, r) && QueriesCached(s)
    ensures EpochInv(r, lists, cfg)
  {
    hide Decide;
    forall c | c in r.caches.live
      ensures VerdictOk(r, lists, cfg, c)
    {
      if c in s.caches.live {
        assert VerdictOk(s, lists, cfg, c);
      }
    }
    forall i | IsLive(r, i)
      ensures ReleasedOk(r, lists, cfg, r.queries[i])
    {
      if i < |s.queries| {
        assert IsLive(s, i) && ReleasedOk(s, lists, cfg, s.queries[i]);
      }
    }
  }

  ghost predicate QueriesCached(s: State) {
    forall i :: IsLive(s, i) ==> s.queries[i].cacheID in s.caches.live
  }

  lemma InvQueriesCached(s: State)
    requires Inv(s)
    ensures QueriesCached(s) && CachesOk(s)
  {
    forall i | IsLive(s, i)
      ensures s.queries[i].cacheID in s.caches.live
    {
      InvQuery(s, s.removed, i);
    }
  }

  lemma KnowClientExtends(s: State, ip: string)
    requires Tables(s)
    ensures Extended(s, KnowClient(s, ip))
  {
    hide Indexed;
  }

  lemma KnowDomainExtends(s: State, name: string)
    requires Tables(s)
    ensures Extended(s, KnowDomain(s, name))
  {
    hide Indexed;
  }

  lemma KnowCacheExtends(s: State, key: CacheKey)
    requires Tables(s)
    ensures Extended(s, KnowCache(s, key))
  {
    hide Indexed;
  }

  lemma ExtendedTrans(s: State, r: State, t: State)
    requires Extended(s, r) && Extended(r, t)
    ensures Extended(s, t)
  {
  }

  lemma EnqueueExtends(s: State, q: Query)
    requires Shaped(s) && QueryOk(s, q) && !q.released
    ensures Extended(s, Enqueue(s, q))
  {
    hide Aligned, GetId;
  }

  lemma EnrolExtends(s: State, ip: string, name: string, t: QType)
    requires Inv(s)
    ensures Extended(s, Enrol(s, ip, name, t).state)
  {
    hide InvFrom, Extended;
    InvIs(s);
    var c, s1 := ClientId(s, ip), KnowClient(s, ip);
    KnowClientKeeps(s, s.removed, ip);
    var d, s2 := DomainId(s1, name), KnowDomain(s1, name);
    KnowDomainKeeps(s1, s.removed, name);
    InvTables(s, s.removed);
    InvTables(s1, s.removed);
    InvTables(s2, s.removed);
    hide Tables;
    KnowClientExtends(s, ip);
    KnowDomainExtends(s1, name);
    KnowCacheExtends(s2, CacheKey(d, c, t));
    ExtendedTrans(s, s1, s2);
    ExtendedTrans(s, s2, KnowCache(s2, CacheKey(d, c, t)));
  }

  lemma InvTables(s: State, from: nat)
    requires InvFrom(s, from)
    ensures Tables(s)
  {
  }

  lemma ArriveEpoch(s: State, e: Event, lists: Lists, cfg: Config)
    requires Inv(s) && EpochInv(s, lists, cfg) && Enabled(s, e) && e.Arrive?
    ensures EpochInv(Step(s, e, cfg), lists, cfg)
  {
    hide InvFrom, EpochInv, Extended, Enrol, KnowClient;
    InvIs(s);
    InvTables(s, s.removed);
    hide Inv, Tables;
    InvQueriesCached(s);
    hide CachesOk;
    EnrolReady(s, s.removed, e.ip, e.name, e.t);
    EnrolKeeps(s, s.removed, e.ip, e.name, e.t);
    EnrolExtends(s, e.ip, e.name, e.t);
    if e.analysed {
      ArriveExtends(s, e);
    } else {
      KnowClientExtends(s, e.ip);
    }
    ExtendedEpoch(s, Step(s, e, cfg), lists, cfg);
  }

  lemma EnrolQueryOk(s: State, e: Event)
    requires Inv(s) && Enabled(s, e) && e.Arrive?
    ensures var f := Enrol(s, e.ip, e.name, e.t);
            Shaped(f.state) && QueryOk(f.state, FreshQuery(e.id, e.now, e.t, f.domainID, f.clientID, f.cacheID))
  {
    var f := Enrol(s, e.ip, e.name, e.t);
    assert InWindow(s, e.now);
    hide Enrol, InvFrom, InWindow, Shaped;
    InvIs(s);
    EnrolKeeps(s, s.removed, e.ip, e.name, e.t);
    SameWindow(s, f.state, s.removed, e.now);
  }

  lemma ArriveExtends(s: State, e: Event)
    requires Inv(s) && Enabled(s, e) && e.Arrive? && e.analysed
    requires Enrolled(Enrol(s, e.ip, e.name, e.t))
    ensures Extended(s, NewQuery(s, e.ip, e.name, e.t, e.id, e.now, e.analysed))
  {
    hide Inv, InvFrom, Enrol, Extended, Shaped, QueryOk, Enqueue, Enabled;
    var f := Enrol(s, e.ip, e.name, e.t);
    var q := FreshQuery(e.id, e.now, e.t, f.domainID, f.clientID, f.cacheID);
    EnrolExtends(s, e.ip, e.name, e.t);
    EnrolQueryOk(s, e);
    EnqueueExtends(f.state, q);
    ExtendedTrans(s, f.state, Enqueue(f.state, q));
  }

  // ---- The collector ----

  ghost predicate SameVerdicts(s: State, r: State) {
    && SameNames(s, r)
    && (forall c :: c in r.caches.live ==> c in s.caches.live && SameRecord(s.caches.live[c], r.caches.live[c]))
  }

  lemma SameVerdictsTrans(s: State, r: State, t: State)
    requires SameVerdicts(s, r) && SameVerdicts(r, t)
    ensures SameVerdicts(s, t)
  {
  }

  lemma ReleasedVerdicts(s: State, i: nat)
    requires Shaped(s) && i < |s.queries| && QueryOk(s, s.queries[i])
    ensures SameVerdicts(s, Released(s, i)) && Released(s, i).queries == s.queries[i := Released(s, i).queries[i]]
    ensures |Released(s, i).slots| == |s.slots| && |Released(s, i).queries| == |s.queries|
    ensures s.queries[i].cacheID in Released(s, i).caches.live && Released(s, i).queries[i].cacheID == s.queries[i].cacheID
  {
    hide Aligned, GetId;
  }

  lemma RetractVerdicts(s: State, i: nat, cfg: Config)
    requires Shaped(s) && i < |s.queries| && QueryOk(s, s.queries[i])
    ensures SameVerdicts(s, Retract(s, i, cfg))
  {
    var r := Released(s, i);
    ReleasedVerdicts(s, i);
    hide *;
    UnknownVerdicts(r, i, cfg);
    SameVerdictsTrans(s, r, SetStatus(r, i, Unknown, cfg));
  }

  // Setting a status back to unknown memorises nothing
  lemma UnknownVerdicts(s: State, i: nat, cfg: Config)
    requires LiveQuery(s, i)
    ensures SameVerdicts(s, SetStatus(s, i, Unknown, cfg))
  {
    if s.queries[i].status != Unknown {
      SetStatusVerdicts(s, i, Unknown, cfg);
      assert SetStatus(s, i, Unknown, cfg).domains == s.domains && SetStatus(s, i, Unknown, cfg).clients == s.clients;
      KeyedAlike(s, i, Unknown, cfg);
    }
    hide SetStatus;
  }

  lemma KeyedAlike(s: State, i: nat, st: Status, cfg: Config)
    requires LiveQuery(s, i)
    ensures forall c :: c in s.caches.live ==> c in SetStatus(s, i, st, cfg).caches.live && SetStatus(s, i, st, cfg).caches.live[c].key == s.caches.live[c].key
  {
    hide GetId, Restatus, Memorised;
  }

  lemma {:induction false} RetractFromVerdicts(s: State, i: nat, mintime: int, cfg: Config)
    requires InvFrom(s, i)
    ensures SameVerdicts(s, RetractFrom(s, i, mintime, cfg).0)
    decreases |s.queries| - i
  {
    hide InvFrom, Retract, SameFrame, Shaped, QueryOk;
    if i < |s.queries| && s.queries[i].timestamp <= mintime as real {
      InvQuery(s, i, i);
      var t := Retract(s, i, cfg);
      RetractKeeps(s, i, cfg);
      SameFrameBasics(s, t);
      RetractFromVerdicts(t, i + 1, mintime, cfg);
      RetractVerdicts(s, i, cfg);
      hide SameVerdicts;
      SameVerdictsTrans(s, t, RetractFrom(t, i + 1, mintime, cfg).0);
    }
  }

  lemma CollectQuiet(s: State, mintime: int, cfg: Config)
    requires Inv(s) && s.gc.None?
    ensures Quiet(s, GcBegin(s, mintime, cfg))
  {
    var r := GcBegin(s, mintime, cfg);
    hide InvFrom, RetractFrom;
    InvIs(s);
    RetractFromKeeps(s, 0, mintime, cfg);
    RetractFromVerdicts(s, 0, mintime, cfg);
    forall i | IsLive(r, i)
      ensures exists j :: IsLive(s, j) && s.queries[j].cacheID == r.queries[i].cacheID && s.queries[j].released == r.queries[i].released
    {
      assert IsLive(s, i) && r.queries[i] == s.queries[i];
    }
  }

  lemma RecycleVerdicts(s: State, now: real)
    ensures SameVerdicts(s, RecycleAll(s, now))
  {
    hide HoldersIn, DeadClients, DeadDomains, DeadCaches;
    var s1 := WithoutClients(s);
    var s2 := WithoutDomains(s1, now);
    assert SameVerdicts(s, s1);
    assert SameVerdicts(s1, s2);
    assert SameVerdicts(s2, WithoutCaches(s2));
    SameVerdictsTrans(s, s1, s2);
    SameVerdictsTrans(s, s2, WithoutCaches(s2));
  }

  lemma MoveVerdicts(s: State, mintime: int)
    requires Shaped(s)
    ensures SameVerdicts(s, MoveOverTime(s, mintime))
  {
    hide Aligned, ShiftOf, MovedSlots, MovedCounts;
  }

  lemma GcEndQueries(s: State, now: real)
    requires s.gc.Some? && s.removed <= |s.queries|
    ensures GcEnd(s, now).queries == s.queries[s.removed..] && GcEnd(s, now).removed == 0
  {
    hide Shaped, ShiftOf, MovedSlots, MovedCounts;
  }

  lemma GcEndVerdicts(s: State, now: real)
    requires s.gc.Some? && s.removed <= |s.queries|
    ensures SameVerdicts(s, GcEnd(s, now))
  {
    var t := Advanced(s);
    var u := RecycleAll(t, now);
    assert SameVerdicts(s, t);
    hide RecycleAll, SameVerdicts, MoveOverTime;
    RecycleVerdicts(t, now);
    SameVerdictsTrans(s, t, u);
    if Shaped(u) {
      MoveVerdicts(u, s.gc.value);
      SameVerdictsTrans(s, u, MoveOverTime(u, s.gc.value));
    }
  }

  lemma FinishQuiet(s: State, now: real)
    requires Inv(s) && s.gc.Some?
    ensures s.removed <= |s.queries| && Quiet(s, GcEnd(s, now))
  {
    assert s.removed <= |s.queries|;
    hide Inv, GcEnd, SameVerdicts, Quiet;
    GcEndQueries(s, now);
    GcEndVerdicts(s, now);
    DropQuiet(s, GcEnd(s, now));
  }

  lemma DropQuiet(s: State, r: State)
    requires SameVerdicts(s, r) && s.removed <= |s.queries| && r.queries == s.queries[s.removed..] && r.removed == 0
    ensures Quiet(s, r)
  {
    forall i | IsLive(r, i)
      ensures exists j :: IsLive(s, j) && s.queries[j].cacheID == r.queries[i].cacheID && s.queries[j].released == r.queries[i].released
    {
      assert IsLive(s, s.removed + i) && r.queries[i] == s.queries[s.removed + i];
    }
  }

  // ---- Epochs ----

  /** What one epoch of the lists admits beyond an orderly run: blocking stays on, queries
      are checked once and right after they arrive, only queries released in this epoch are
      forwarded, answered upstream or blocked upstream, and there are no CNAME hops, merged
      duplicates or list reloads. */
  ghost predicate InEpoch(s: State, e: Event, lists: Lists)
    requires Enabled(s, e)
  {
    match e
    case Check(i, l) => l == lists && Unchecked(s, i)
    case Forward(i, _, _) => s.queries[i].released
    case Respond(i, a) => s.queries[i].released || (Cached(a, s.queries[i].qtype) && IsBlocked(s.queries[i].status))
    case BlockByHeader(i, st) => s.queries[i].released && IsExternal(st)
    case BlockByAddress(i, st) => s.queries[i].released && IsExternal(st)
    case Hop(_, _, _, _, _) => false
    case Merge(_, _) => false
    case ReloadLists => false
    case _ => true
  }

  lemma FlushEpoch(s: State, time: int, lists: Lists, cfg: Config)
    requires Inv(s) && EpochInv(s, lists, cfg) && s.gc.None?
    ensures EpochInv(Step(s, Flush(time), cfg), lists, cfg)
  {
    var t := GcBegin(s, time, cfg);
    hide Inv, EpochInv, Quiet, RetractFrom;
    CollectQuiet(s, time, cfg);
    QuietEpoch(s, t, lists, cfg);
    GcBeginKeeps(s, time, cfg);
    FinishQuiet(t, time as real);
    QuietEpoch(t, GcEnd(t, time as real), lists, cfg);
  }

  lemma HeaderEpoch(s: State, i: nat, st: Status, lists: Lists, cfg: Config)
    requires Inv(s) && EpochInv(s, lists, cfg) && IsLive(s, i) && LiveQuery(s, i) && s.queries[i].released && IsExternal(st)
    ensures EpochInv(BlockedByHeader(s, i, st, cfg), lists, cfg)
  {
    hide Inv, EpochInv, QueryBlocked, SetReply;
    BlockedSound(s, i, st, lists, cfg);
    SoundReply(s, i, QueryBlocked(s, i, st, cfg), Nxdomain, lists, cfg);
  }

  lemma FailEpoch(s: State, i: nat, server: Option<(string, nat)>, reply: Reply, lists: Lists, cfg: Config)
    requires Inv(s) && EpochInv(s, lists, cfg) && IsLive(s, i)
    ensures EpochInv(FailWith(s, i, server, reply), lists, cfg)
  {
    hide Inv, EpochInv, UpdateUpstream, SetReply, Good;
    InvIs(s);
    UpdateUpstreamGood(s, s.removed, i, server);
    UpdateUpstreamQuiet(s, i, server);
    QuietHook(s, i, UpdateUpstream(s, i, server), lists, cfg);
    SoundReply(s, i, UpdateUpstream(s, i, server), reply, lists, cfg);
  }

  lemma IntermittentFits(s: State, i: nat, st: Status, lists: Lists, cfg: Config)
    requires Intermittent(st)
    ensures Fits(s, i, st, lists, cfg)
  {
    hide Agrees, Decide;
  }

  lemma RetryEpoch(s: State, i: nat, ip: string, port: nat, dnssec: bool, lists: Lists, cfg: Config)
    requires Inv(s) && EpochInv(s, lists, cfg) && IsLive(s, i) && LiveQuery(s, i)
    ensures EpochInv(Retrying(s, i, ip, port, dnssec, cfg), lists, cfg)
  {
    var r := FindUpstream(s, ip, port);
    var st := if dnssec then RetriedDnssec else Retried;
    assert SameRelease(s, r) by {
      hide UpstreamIndex, Inv, EpochInv;
    }
    hide Inv, EpochInv, FindUpstream, SetStatus, Good, SameRelease, Fits;
    InvIs(s);
    FindUpstreamGood(s, s.removed, i, ip, port);
    QuietHook(s, i, r, lists, cfg);
    IntermittentFits(r, i, st, lists, cfg);
    SoundStatus(s, i, r, st, lists, cfg);
  }

  lemma ServerEpoch(s: State, ip: string, port: nat, lists: Lists, cfg: Config)
    requires Inv(s) && EpochInv(s, lists, cfg)
    ensures EpochInv(FindUpstream(s, ip, port), lists, cfg)
  {
    var r := FindUpstream(s, ip, port);
    assert SameRelease(s, r) by {
      hide UpstreamIndex, Inv, EpochInv;
    }
    hide Inv, EpochInv, FindUpstream, Good, Stays, Quiet;
    InvIs(s);
    FindUpstreamGood(s, s.removed, 0, ip, port);
    GoodStays(s, s.removed, 0, r);
    FrameQuiet(s, r);
    QuietEpoch(s, r, lists, cfg);
  }

  lemma WaitEpoch(s: State, i: nat, lists: Lists, cfg: Config)
    requires Inv(s) && EpochInv(s, lists, cfg) && IsLive(s, i) && LiveQuery(s, i)
    ensures EpochInv(SetStatus(s, i, InProgress, cfg), lists, cfg)
  {
    hide Inv, EpochInv, SetStatus, Fits;
    SoundRefl(s, i, lists, cfg);
    IntermittentFits(s, i, InProgress, lists, cfg);
    SoundStatus(s, i, s, InProgress, lists, cfg);
  }

  lemma DropEpoch(s: State, i: nat, lists: Lists, cfg: Config)
    requires Inv(s) && EpochInv(s, lists, cfg) && IsLive(s, i)
    ensures EpochInv(DropReply(s, i), lists, cfg)
  {
    hide Inv, EpochInv, SetReply;
    SoundRefl(s, i, lists, cfg);
    SoundReply(s, i, s, Dropped, lists, cfg);
  }

  lemma ReleasedEpoch(s: State, e: Event, lists: Lists, cfg: Config)
    requires Inv(s) && EpochInv(s, lists, cfg) && Enabled(s, e) && InEpoch(s, e, lists)
    requires e.Forward? || e.Respond? || e.BlockByHeader? || e.BlockByAddress?
    ensures EpochInv(Step(s, e, cfg), lists, cfg)
  {
    hide Enrol, Enrolled, NewQuery, Filter, Cname, Duplicate, Reload, GcBegin, GcEnd;
    hide Inv, InvFrom, EpochInv, LiveQuery, Fetchable, ForwardTo, ReplyTo, FailWith, BlockedByHeader, QueryBlocked, Retrying, SetStatus, DropReply, IsBlocked, IsExternal, Cached;
    LiveFetchable(s, e.i);
    InvLiveQuery(s, e.i);
    match e {
      case Forward(i, ip, port) => ForwardSound(s, i, ip, port, lists, cfg);
      case Respond(i, a) => RespondSound(s, i, a, lists, cfg);
      case BlockByHeader(i, st) => HeaderEpoch(s, i, st, lists, cfg);
      case BlockByAddress(i, st) => BlockedSound(s, i, st, lists, cfg);
    }
  }

  lemma PendingEpoch(s: State, e: Event, lists: Lists, cfg: Config)
    requires Inv(s) && EpochInv(s, lists, cfg) && Enabled(s, e)
    requires e.Retry? || e.Wait?
    ensures EpochInv(Step(s, e, cfg), lists, cfg)
  {
    hide Enrol, Enrolled, NewQuery, Filter, Cname, Duplicate, Reload, GcBegin, GcEnd;
    hide Inv, InvFrom, EpochInv, LiveQuery, Fetchable, ForwardTo, ReplyTo, FailWith, BlockedByHeader, QueryBlocked, Retrying, SetStatus, DropReply;
    LiveFetchable(s, e.i);
    InvLiveQuery(s, e.i);
    match e {
      case Retry(i, ip, port, dnssec) => RetryEpoch(s, i, ip, port, dnssec, lists, cfg);
      case Wait(i) => WaitEpoch(s, i, lists, cfg);
    }
  }

  lemma OtherEpoch(s: State, e: Event, lists: Lists, cfg: Config)
    requires Inv(s) && EpochInv(s, lists, cfg) && Enabled(s, e)
    requires e.Fail? || e.Drop?
    ensures EpochInv(Step(s, e, cfg), lists, cfg)
  {
    hide Enrol, Enrolled, NewQuery, Filter, Cname, Duplicate, Reload, GcBegin, GcEnd;
    hide Inv, InvFrom, EpochInv, LiveQuery, Fetchable, ForwardTo, ReplyTo, FailWith, BlockedByHeader, QueryBlocked, Retrying, SetStatus, DropReply;
    LiveFetchable(s, e.i);
    InvLiveQuery(s, e.i);
    match e {
      case Fail(i, server, reply) => FailEpoch(s, i, server, reply, lists, cfg);
      case Drop(i) => DropEpoch(s, i, lists, cfg);
    }
  }

  /** One event of an epoch keeps the memorised verdicts in agreement with the lists. */
  lemma StepEpoch(s: State, e: Event, lists: Lists, cfg: Config)
    requires Inv(s) && EpochInv(s, lists, cfg) && Enabled(s, e) && InEpoch(s, e, lists)
    requires cfg.enabled && ListsAvailable(lists)
    ensures EpochInv(Step(s, e, cfg), lists, cfg)
  {
    match e {
      case Arrive(_, _, _, _, _, _) => ArriveEpoch(s, e, lists, cfg);
      case Check(i, _) => CheckEpoch(s, i, lists, cfg);
      case Collect(mintime) =>
        hide Inv, EpochInv, Quiet, RetractFrom;
        CollectQuiet(s, mintime, cfg);
        QuietEpoch(s, GcBegin(s, mintime, cfg), lists, cfg);
      case Finish(now) =>
        hide Inv, EpochInv, Quiet, GcEnd;
        FinishQuiet(s, now);
        QuietEpoch(s, GcEnd(s, now), lists, cfg);
      case Flush(time) => FlushEpoch(s, time, lists, cfg);
      case Forward(_, _, _) => ReleasedEpoch(s, e, lists, cfg);
      case Respond(_, _) => ReleasedEpoch(s, e, lists, cfg);
      case BlockByHeader(_, _) => ReleasedEpoch(s, e, lists, cfg);
      case BlockByAddress(_, _) => ReleasedEpoch(s, e, lists, cfg);
      case Retry(_, _, _, _) => PendingEpoch(s, e, lists, cfg);
      case Wait(_) => PendingEpoch(s, e, lists, cfg);
      case RetryUnknown(ip, port) => ServerEpoch(s, ip, port, lists, cfg);
      case _ => OtherEpoch(s, e, lists, cfg);
    }
  }

  // No record remembers a verdict and no query is released
  ghost predicate EpochStart(s: State) {
    && Inv(s)
    && (forall c :: c in s.caches.live ==> s.caches.live[c].data.verdict.blocking == Unknown)
    && (forall i :: IsLive(s, i) ==> !s.queries[i].released)
  }

  ghost function ExecFrom(s: State, events: seq<Event>, cfg: Config): State {
    if events == [] then s
    else Step(ExecFrom(s, events[..|events| - 1], cfg), events[|events| - 1], cfg)
  }

  ghost predicate OrderlyEpoch(s: State, events: seq<Event>, lists: Lists, cfg: Config) {
    forall k :: 0 <= k < |events| ==>
      var t := ExecFrom(s, events[..k], cfg);
      Enabled(t, events[k]) && InEpoch(t, events[k], lists)
  }

  /** A reload starts an epoch, whatever the store holds: history, remembered verdicts and
      queries in flight. */
  lemma ReloadStartsEpoch(s: State)
    requires Inv(s)
    ensures EpochStart(Reload(s))
  {
    hide InvFrom;
    InvIs(s);
    ReloadKeeps(s, s.removed);
  }

  lemma FreshEpoch(s: State, lists: Lists, cfg: Config)
    requires EpochStart(s)
    ensures Inv(s) && EpochInv(s, lists, cfg)
  {
    hide Inv, Decide;
  }

  lemma OrderlyPrefix(s: State, events: seq<Event>, lists: Lists, cfg: Config)
    requires events != [] && OrderlyEpoch(s, events, lists, cfg)
    ensures var n := |events| - 1;
            && OrderlyEpoch(s, events[..n], lists, cfg)
            && Enabled(ExecFrom(s, events[..n], cfg), events[n])
            && InEpoch(ExecFrom(s, events[..n], cfg), events[n], lists)
  {
    hide Step, Enabled, InEpoch, ExecFrom;
    var n := |events| - 1;
    assert forall k :: 0 <= k < n ==> events[..n][..k] == events[..k];
  }

  lemma {:induction false} EpochKeeps(s: State, events: seq<Event>, lists: Lists, cfg: Config)
    requires EpochStart(s) && cfg.enabled && ListsAvailable(lists) && OrderlyEpoch(s, events, lists, cfg)
    ensures Inv(ExecFrom(s, events, cfg)) && EpochInv(ExecFrom(s, events, cfg), lists, cfg)
    decreases |events|
  {
    hide Inv, EpochInv, Step, Enabled, InEpoch, ListsAvailable, EpochStart;
    if events == [] {
      FreshEpoch(s, lists, cfg);
    } else {
      var n := |events| - 1;
      OrderlyPrefix(s, events, lists, cfg);
      hide OrderlyEpoch;
      EpochKeeps(s, events[..n], lists, cfg);
      var t := ExecFrom(s, events[..n], cfg);
      StepKeeps(t, events[n], cfg);
      StepEpoch(t, events[n], lists, cfg);
    }
  }

  // ---- Any run, any reload in it ----

  // A run, a reload at its end, and the events of the epoch that follows
  ghost function Since(before: seq<Event>, events: seq<Event>): seq<Event> {
    before + [ReloadLists] + events
  }

  // The epoch after that reload admits these events
  ghost predicate EpochOf(start: nat, before: seq<Event>, events: seq<Event>, lists: Lists, cfg: Config) {
    Orderly(start, before, cfg) && OrderlyEpoch(Reload(Exec(start, before, cfg)), events, lists, cfg)
  }

  lemma {:induction false} ExecSince(start: nat, before: seq<Event>, events: seq<Event>, cfg: Config)
    ensures Exec(start, Since(before, events), cfg) == ExecFrom(Reload(Exec(start, before, cfg)), events, cfg)
    decreases |events|
  {
    hide Step, Reload;
    if events == [] {
      ReloadStep(Exec(start, before, cfg), cfg);
      SinceLast(before, [], ReloadLists);
    } else {
      var n := |events| - 1;
      SinceLast(before, events, events[n]);
      hide Since;
      ExecSince(start, before, events[..n], cfg);
    }
  }

  lemma SinceLast(before: seq<Event>, events: seq<Event>, last: Event)
    requires last == if events == [] then ReloadLists else events[|events| - 1]
    ensures var all := Since(before, events);
            && all != [] && all[|all| - 1] == last
            && all[..|all| - 1] == if events == [] then before else Since(before, events[..|events| - 1])
  {
  }

  lemma ReloadStep(s: State, cfg: Config)
    ensures Step(s, ReloadLists, cfg) == Reload(s)
  {
    hide Reload;
  }

  /** After any run and a reload, for as long as the epoch lasts: every memorised verdict
      agrees with the list chain, and no query released since is one the chain blocks.
      What the run left in the table does not matter. */
  lemma EpochsAgree(start: nat, before: seq<Event>, events: seq<Event>, lists: Lists, cfg: Config)
    requires start >= 86400 && cfg.enabled && ListsAvailable(lists) && EpochOf(start, before, events, lists, cfg)
    ensures var s := Exec(start, Since(before, events), cfg); Inv(s) && EpochInv(s, lists, cfg)
  {
    hide Inv, EpochInv, Exec, ExecFrom, Orderly, OrderlyEpoch, Reload, EpochStart, ListsAvailable;
    RunsKeepInv(start, before, cfg);
    ReloadStartsEpoch(Exec(start, before, cfg));
    EpochKeeps(Reload(Exec(start, before, cfg)), events, lists, cfg);
    ExecSince(start, before, events, cfg);
  }

  /** Within one epoch the check of an arrived query gives the same answer, status and
      allowed flag whether the record remembers a verdict or the lists are asked. */
  lemma EpochChecksAreFaithful(start: nat, before: seq<Event>, events: seq<Event>, i: nat, lists: Lists, cfg: Config)
    requires start >= 86400 && cfg.enabled && ListsAvailable(lists) && EpochOf(start, before, events, lists, cfg)
    requires Unchecked(Exec(start, Since(before, events), cfg), i)
    ensures var t := Exec(start, Since(before, events), cfg);
            && Checkable(t, i)
            && Faithful(t, i, CheckOf(t, i, lists, cfg), ChainOf(t, i, lists, cfg),
                        Current(t.caches.live[t.queries[i].cacheID].data.verdict, t.queries[i].timestamp, cfg.ttl))
  {
    EpochsAgree(start, before, events, lists, cfg);
    var t := Exec(start, Since(before, events), cfg);
    hide Inv, Exec, EpochOf, ListsAvailable;
    InvCheckable(t, i);
    assert VerdictOk(t, lists, cfg, t.queries[i].cacheID);
    hide EpochInv, CheckOf, ChainOf, Faithful, Current;
    CheckOutcome(t, i, lists, cfg);
  }
}
