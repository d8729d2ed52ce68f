// What each hook does to the query it is about, said without the hook's own definition:
// the status, reply and flags the query ends with, the servers' counts, the records named
// (src/dnsmasq_interface.c).
module Effects {
  import opened Records
  import opened Interning
  import opened OverTime
  import opened Blocking
  import opened Hashing
  import opened Store
  import opened Conservation
  import opened Collection
  import opened Hooks
  import opened Runs
  import opened Hops

  // ---- Building blocks ----

  // Setting a status changes one query, the counters and at most the query's own record
  lemma StatusOnly(s: State, i: nat, st: Status, cfg: Config)
    requires |s.slots| == OVERTIME_SLOTS && i < |s.queries|
    ensures var r := SetStatus(s, i, st, cfg);
            && r.queries == s.queries[i := s.queries[i].(status := st)]
            && r.upstreams == s.upstreams && r.domains == s.domains && r.clients == s.clients
            && r.reply == s.reply && |r.slots| == OVERTIME_SLOTS
  {
    hide GetId, Restatus, Memorised, Updated, Bump;
  }

  lemma LiveSlots(s: State, i: nat)
    requires Inv(s) && IsLive(s, i)
    ensures InvFrom(s, s.removed) && |s.slots| == OVERTIME_SLOTS && s.removed <= i < |s.queries| && Fetchable(s, i)
  {
    hide InvFrom, Fetchable;
    LiveFetchable(s, i);
  }

  lemma UpstreamBound(s: State, i: nat)
    requires Inv(s) && IsLive(s, i)
    ensures -1 <= s.queries[i].upstreamID < |s.upstreams| && (s.queries[i].counted ==> 0 <= s.queries[i].upstreamID)
  {
    InvQuery(s, s.removed, i);
    hide InvFrom, Aligned;
  }

  // ---- Forwarding ----

  // Server u is the one with this address, newly appended only if there was none, and every
  // server known before keeps its own address
  ghost predicate Serves(before: seq<Upstream>, after: seq<Upstream>, u: int, ip: string, port: nat) {
    && 0 <= u < |after| && after[u].ip == ip && after[u].port == port
    && |before| <= |after| <= |before| + 1
    && (|after| > |before| ==>
         u == |before| && forall v :: 0 <= v < |before| ==> before[v].ip != ip || before[v].port != port)
    && forall v :: 0 <= v < |before| ==> after[v].ip == before[v].ip && after[v].port == before[v].port
  }

  function CountOf(us: seq<Upstream>, u: int): int {
    if 0 <= u < |us| then us[u].count else 0
  }

  // The count of a query moves to server u from the server it was counted at, if it was
  ghost predicate CountMoves(before: seq<Upstream>, after: seq<Upstream>, q: Query, u: int) {
    forall v: int :: CountOf(after, v) == CountOf(before, v) + One(v == u) - One(q.counted && v == q.upstreamID)
  }

  lemma FindUpstreamServes(s: State, ip: string, port: nat)
    ensures var r, u := FindUpstream(s, ip, port), UpstreamIndex(s.upstreams, ip, port);
            && Serves(s.upstreams, r.upstreams, u, ip, port) && r == s.(upstreams := r.upstreams)
            && (forall v: int :: CountOf(r.upstreams, v) == CountOf(s.upstreams, v))
            && u < |r.upstreams| && |s.upstreams| <= |r.upstreams|
  {
  }

  lemma CountAtMoves(s: State, i: nat, u: nat, before: seq<Upstream>, ip: string, port: nat)
    requires i < |s.queries| && (s.queries[i].counted ==> 0 <= s.queries[i].upstreamID < |s.upstreams|)
    requires Serves(before, s.upstreams, u, ip, port) && forall v: int :: CountOf(s.upstreams, v) == CountOf(before, v)
    ensures var r := CountAt(s, i, u);
            && r == s.(upstreams := r.upstreams, queries := s.queries[i := s.queries[i].(upstreamID := u, counted := true)])
            && Serves(before, r.upstreams, u, ip, port) && CountMoves(before, r.upstreams, s.queries[i], u)
  {
  }

  lemma ForwardChanges(s: State, i: nat, ip: string, port: nat, cfg: Config)
    requires |s.slots| == OVERTIME_SLOTS && i < |s.queries| && !s.queries[i].complete
    requires s.queries[i].counted ==> 0 <= s.queries[i].upstreamID < |s.upstreams|
    ensures var q, r := s.queries[i], ForwardTo(s, i, ip, port, cfg);
            && i < |r.queries|
            && var p := r.queries[i];
               && p == q.(status := Forwarded, counted := true, upstreamID := p.upstreamID,
                          complete := q.status != Cache, answered := q.answered && q.status != Cache)
               && Serves(s.upstreams, r.upstreams, p.upstreamID, ip, port)
               && CountMoves(s.upstreams, r.upstreams, q, p.upstreamID)
  {
    hide FindUpstream, CountAt, SetStatus, UpstreamIndex, Serves, CountMoves, CountOf;
    var u := UpstreamIndex(s.upstreams, ip, port);
    var s0 := FindUpstream(s, ip, port);
    FindUpstreamServes(s, ip, port);
    CountAtMoves(s0, i, u, s.upstreams, ip, port);
    var s1 := CountAt(s0, i, u);
    StatusOnly(if s.queries[i].status == Cache then Unanswered(s1, i) else Completed(s1, i), i, Forwarded, cfg);
  }

  /** Lorentz_forwarded(): a complete query is left alone. Any other one becomes forwarded and
      is counted at the server with this address, and at no other: the count of that server
      rises by one and the count of the one it was counted at before falls by one. The query is
      complete then, unless it had been answered from the cache, in which case the answer is
      awaited again. */
  lemma ForwardEffect(s: State, i: nat, ip: string, port: nat, cfg: Config)
    requires Inv(s) && IsLive(s, i)
    ensures |s.slots| == OVERTIME_SLOTS
    ensures var q, r := s.queries[i], ForwardTo(s, i, ip, port, cfg);
            && (q.complete ==> r == s)
            && (!q.complete ==>
                 && i < |r.queries|
                 && var p := r.queries[i];
                    && p == q.(status := Forwarded, counted := true, upstreamID := p.upstreamID,
                               complete := q.status != Cache, answered := q.answered && q.status != Cache)
                    && Serves(s.upstreams, r.upstreams, p.upstreamID, ip, port)
                    && CountMoves(s.upstreams, r.upstreams, q, p.upstreamID))
  {
    hide InvFrom, Fetchable, Serves, CountMoves;
    LiveSlots(s, i);
    UpstreamBound(s, i);
    if !s.queries[i].complete {
      ForwardChanges(s, i, ip, port, cfg);
    }
  }

  // ---- The answering server ----

  // The first answer of a query: the server that gave it takes over query and count
  ghost predicate TakesOver(before: seq<Upstream>, after: seq<Upstream>, q: Query, p: Query, server: Option<(string, nat)>) {
    && p == q.(upstreamID := p.upstreamID)
    && (if server.None? || q.answered then p == q && after == before
        else
          && Serves(before, after, p.upstreamID, server.value.0, server.value.1)
          && if q.counted then CountMoves(before, after, q, p.upstreamID)
             else forall v: int :: CountOf(after, v) == CountOf(before, v))
  }

  lemma UpdateUpstreamEffect(s: State, i: nat, server: Option<(string, nat)>)
    requires i < |s.queries| && (s.queries[i].counted ==> 0 <= s.queries[i].upstreamID < |s.upstreams|)
    ensures var r := UpdateUpstream(s, i, server);
            && i < |r.queries| && TakesOver(s.upstreams, r.upstreams, s.queries[i], r.queries[i], server)
            && r == s.(upstreams := r.upstreams, queries := s.queries[i := r.queries[i]])
  {
    if server.Some? && !s.queries[i].answered {
      var ip, port := server.value.0, server.value.1;
      var s1, u := FindUpstream(s, ip, port), UpstreamIndex(s.upstreams, ip, port);
      hide FindUpstream, UpstreamIndex, Serves, CountMoves, CountOf, BumpUpstream;
      FindUpstreamServes(s, ip, port);
      MoveCounts(s.upstreams, s1.upstreams, s.queries[i], u, ip, port);
      assert s.queries[i := s.queries[i]] == s.queries;
    } else {
      assert s.queries[i := s.queries[i]] == s.queries;
    }
  }

  // Taking the count off one server and putting it on another
  lemma MoveCounts(before: seq<Upstream>, us: seq<Upstream>, q: Query, u: nat, ip: string, port: nat)
    requires Serves(before, us, u, ip, port) && forall v: int :: CountOf(us, v) == CountOf(before, v)
    requires q.counted ==> 0 <= q.upstreamID < |us|
    ensures q.counted ==>
              var after := BumpUpstream(BumpUpstream(us, q.upstreamID, -1), u, 1);
              Serves(before, after, u, ip, port) && CountMoves(before, after, q, u)
    ensures q.counted && q.upstreamID == u ==> CountMoves(before, us, q, u)
  {
  }

  // ---- Replies ----

  // A reply from an upstream server is recorded only if it is known which one
  predicate Attributed(q: Query, a: Answer) {
    q.upstreamID >= 0 || (a.server.Some? && !q.answered)
  }

  // Short-circuited before: the reply is not the upstream server's
  predicate ShortCircuited(st: Status) {
    st == ExternalNull || st == ExternalNxra || st == ExternalEde15
  }

  // p is q with this status, reply and complete flag; server and response flag aside
  predicate Ends(q: Query, p: Query, st: Status, reply: Reply, complete: bool) {
    p == q.(status := st, reply := reply, complete := complete, upstreamID := p.upstreamID, answered := true)
  }

  /** What the first reply makes of a query, by the kind of answer. */
  predicate Replied(q: Query, p: Query, a: Answer) {
    var cached := if a.stale then CacheStale else Cache;
    if Cached(a, q.qtype) then
      // From the cache, or synthesized for a blocked query, which keeps its status
      Ends(q, p, if IsBlocked(q.status) then q.status else cached, a.reply, true)
    else if a.exact then
      if a.config && !q.complete then Ends(q, p, cached, a.reply, true)
      else if Attributed(q, a) && !ShortCircuited(q.status) then Ends(q, p, q.status, a.reply, q.complete)
      else Ends(q, p, q.status, NoReply, q.complete)
    else if a.reverse || q.qtype == Ptr then Ends(q, p, q.status, a.reply, true)
    else if a.rcode then Ends(q, p, if IsBlocked(q.status) then q.status else Cache, a.reply, true)
    else Ends(q, p, q.status, NoReply, q.complete)
  }

  lemma StatusAt(s: State, i: nat, st: Status, cfg: Config)
    requires |s.slots| == OVERTIME_SLOTS && i < |s.queries|
    ensures var r := SetStatus(s, i, st, cfg);
            && |r.queries| == |s.queries| && r.queries[i] == s.queries[i].(status := st)
            && r.upstreams == s.upstreams && |r.slots| == OVERTIME_SLOTS
  {
    hide SetStatus;
    StatusOnly(s, i, st, cfg);
  }

  lemma CompleteAt(s: State, i: nat)
    requires i < |s.queries|
    ensures var r := Completed(s, i);
            |r.queries| == |s.queries| && r.queries[i] == s.queries[i].(complete := true) && r.upstreams == s.upstreams
  {
  }

  lemma ReplyAndComplete(s: State, i: nat, x: Reply)
    requires i < |s.queries|
    ensures var r := SetReply(s, i, x);
            && |r.queries| == |s.queries| && r.queries[i] == s.queries[i].(reply := x, answered := true)
            && r.upstreams == s.upstreams && r.slots == s.slots
            && |Completed(r, i).queries| == |s.queries| && Completed(r, i).queries[i] == r.queries[i].(complete := true)
            && Completed(r, i).upstreams == s.upstreams
  {
  }

  lemma RepliedCached(q: Query, p: Query, a: Answer)
    requires Cached(a, q.qtype) && q.answered
    requires p == q.(status := if IsBlocked(q.status) then q.status else if a.stale then CacheStale else Cache,
                     reply := a.reply, complete := true)
    ensures Replied(q, p, a.(server := None))
  {
  }

  lemma RepliedExact(q: Query, p: Query, a: Answer)
    requires !Cached(a, q.qtype) && a.exact && q.answered && q.reply == NoReply
    requires if a.config && !q.complete then
               p == q.(status := if a.stale then CacheStale else Cache, reply := a.reply, complete := true)
             else p == q.(reply := if q.upstreamID < 0 || ShortCircuited(q.status) then NoReply else a.reply)
    ensures Replied(q, p, a.(server := None))
  {
  }

  lemma RepliedOther(q: Query, p: Query, a: Answer)
    requires !Cached(a, q.qtype) && !a.exact && q.answered && q.reply == NoReply
    requires if a.reverse || q.qtype == Ptr then p == q.(reply := a.reply, complete := true)
             else if a.rcode then p == q.(status := if IsBlocked(q.status) then q.status else Cache, reply := a.reply, complete := true)
             else p == q
    ensures Replied(q, p, a.(server := None))
  {
  }

  // What the branches of the first reply leave, kind by kind
  ghost predicate FirstReplied(s: State, i: nat, a: Answer, r: State) {
    && i < |s.queries| && i < |r.queries| && r.upstreams == s.upstreams
    && Replied(s.queries[i], r.queries[i], a.(server := None)) && r.queries[i].upstreamID == s.queries[i].upstreamID
  }

  ghost predicate Awaiting(s: State, i: nat) {
    |s.slots| == OVERTIME_SLOTS && i < |s.queries| && s.queries[i].reply == NoReply && s.queries[i].answered
  }

  lemma CachedReply(s: State, i: nat, a: Answer, cfg: Config)
    requires Awaiting(s, i) && Cached(a, s.queries[i].qtype)
    ensures FirstReplied(s, i, a, FirstReply(s, i, a, cfg))
  {
    hide SetStatus, SetReply, Completed, Replied, IsBlocked;
    var q := s.queries[i];
    var qs := if a.stale then CacheStale else Cache;
    StatusAt(s, i, qs, cfg);
    ReplyAndComplete(if IsBlocked(q.status) then s else SetStatus(s, i, qs, cfg), i, a.reply);
    RepliedCached(q, FirstReply(s, i, a, cfg).queries[i], a);
  }

  lemma ExactReply(s: State, i: nat, a: Answer, cfg: Config)
    requires Awaiting(s, i) && !Cached(a, s.queries[i].qtype) && a.exact
    ensures FirstReplied(s, i, a, FirstReply(s, i, a, cfg))
  {
    hide SetStatus, SetReply, Completed, Replied, IsBlocked;
    var qs := if a.stale then CacheStale else Cache;
    StatusAt(s, i, qs, cfg);
    ReplyAndComplete(SetStatus(s, i, qs, cfg), i, a.reply);
    ReplyAndComplete(s, i, a.reply);
    RepliedExact(s.queries[i], FirstReply(s, i, a, cfg).queries[i], a);
  }

  lemma OtherReply(s: State, i: nat, a: Answer, cfg: Config)
    requires Awaiting(s, i) && !Cached(a, s.queries[i].qtype) && !a.exact
    ensures FirstReplied(s, i, a, FirstReply(s, i, a, cfg))
  {
    hide SetStatus, SetReply, Completed, Replied, IsBlocked;
    ReplyAndComplete(s, i, a.reply);
    StatusAt(SetReply(s, i, a.reply), i, Cache, cfg);
    CompleteAt(SetStatus(SetReply(s, i, a.reply), i, Cache, cfg), i);
    RepliedOther(s.queries[i], FirstReply(s, i, a, cfg).queries[i], a);
  }

  lemma FirstReplyEffect(s: State, i: nat, a: Answer, cfg: Config)
    requires Awaiting(s, i)
    ensures FirstReplied(s, i, a, FirstReply(s, i, a, cfg))
  {
    hide FirstReply, FirstReplied;
    if Cached(a, s.queries[i].qtype) {
      CachedReply(s, i, a, cfg);
    } else if a.exact {
      ExactReply(s, i, a, cfg);
    } else {
      OtherReply(s, i, a, cfg);
    }
  }

  /** Lorentz_reply(): the first reply of a query is recorded as its kind says; once a query has
      a reply, no further one changes reply, status or complete flag, nor any reply counter. The
      first answer from upstream moves the query to the server that gave it. */
  lemma ReplyEffect(s: State, i: nat, a: Answer, cfg: Config)
    requires Inv(s) && IsLive(s, i)
    ensures |s.slots| == OVERTIME_SLOTS
    ensures var q, r := s.queries[i], ReplyTo(s, i, a, cfg);
            && i < |r.queries|
            && var p := r.queries[i];
               && (if q.reply == NoReply then Replied(q, p, a) else Ends(q, p, q.status, q.reply, q.complete) && r.reply == s.reply)
               && TakesOver(s.upstreams, r.upstreams, q, q.(upstreamID := p.upstreamID),
                            if Cached(a, q.qtype) then None else a.server)
  {
    hide InvFrom, Fetchable;
    LiveSlots(s, i);
    UpstreamBound(s, i);
    hide Inv;
    ReplyChanges(s, i, a, cfg);
  }

  lemma ReplyChanges(s: State, i: nat, a: Answer, cfg: Config)
    requires |s.slots| == OVERTIME_SLOTS && i < |s.queries|
    requires s.queries[i].counted ==> 0 <= s.queries[i].upstreamID < |s.upstreams|
    ensures var q, r := s.queries[i], ReplyTo(s, i, a, cfg);
            && i < |r.queries|
            && var p := r.queries[i];
               && (if q.reply == NoReply then Replied(q, p, a) else Ends(q, p, q.status, q.reply, q.complete) && r.reply == s.reply)
               && TakesOver(s.upstreams, r.upstreams, q, q.(upstreamID := p.upstreamID),
                            if Cached(a, q.qtype) then None else a.server)
  {
    hide UpdateUpstream, FirstReply, TakesOver, Replied;
    var q := s.queries[i];
    UpdateUpstreamEffect(s, i, a.server);
    var s1 := if Cached(a, q.qtype) then s else UpdateUpstream(s, i, a.server);
    var s2 := Answered(s1, i);
    TakesOverParts(s.upstreams, s1.upstreams, q, s1.queries[i], if Cached(a, q.qtype) then None else a.server);
    if q.reply == NoReply {
      FirstReplyEffect(s2, i, a, cfg);
      RepliedFrom(q, s2.queries[i], FirstReply(s2, i, a, cfg).queries[i], a);
    }
  }

  lemma TakesOverParts(before: seq<Upstream>, after: seq<Upstream>, q: Query, p: Query, server: Option<(string, nat)>)
    requires TakesOver(before, after, q, p, server) || (server.None? && p == q && after == before)
    ensures TakesOver(before, after, q, p, server) && p == q.(upstreamID := p.upstreamID)
    ensures server.Some? && !q.answered ==> 0 <= p.upstreamID
    ensures server.None? || q.answered ==> p == q
  {
  }

  // Attribution is decided before the branches are
  lemma RepliedFrom(q: Query, m: Query, p: Query, a: Answer)
    requires m == q.(upstreamID := m.upstreamID, answered := true)
    requires Replied(m, p, a.(server := None))
    requires !Cached(a, q.qtype) ==> (m.upstreamID >= 0 <==> Attributed(q, a))
    ensures Replied(q, p, a)
  {
  }

  // ---- Errors, failed validations, retries, duplicates ----

  /** Lorentz_upstream_error(): the query gets the reply of the error code and goes to the
      server that sent it; its status stays. */
  lemma FailEffect(s: State, i: nat, server: Option<(string, nat)>, reply: Reply)
    requires Inv(s) && IsLive(s, i)
    ensures var q, r := s.queries[i], FailWith(s, i, server, reply);
            && i < |r.queries| && Ends(q, r.queries[i], q.status, reply, q.complete)
            && TakesOver(s.upstreams, r.upstreams, q, q.(upstreamID := r.queries[i].upstreamID), server)
  {
    hide InvFrom, Fetchable, TakesOver, UpdateUpstream, SetReply;
    UpstreamBound(s, i);
    hide Inv;
    UpdateUpstreamEffect(s, i, server);
    var s1 := UpdateUpstream(s, i, server);
    TakesOverParts(s.upstreams, s1.upstreams, s.queries[i], s1.queries[i], server);
    ReplyAndComplete(s1, i, reply);
  }

  // A query that is blocked: it leaves its server if it was forwarded
  function Blocked(q: Query, st: Status): Query {
    q.(status := st, counted := q.counted && q.status != Forwarded)
  }

  lemma BlockAt(s: State, i: nat, st: Status, cfg: Config)
    requires |s.slots| == OVERTIME_SLOTS && i < |s.queries| && !IsBlocked(s.queries[i].status)
    ensures var r := QueryBlocked(s, i, st, cfg);
            && r.queries == s.queries[i := Blocked(s.queries[i], st)] && r.domains == s.domains && r.clients == s.clients
            && |r.slots| == OVERTIME_SLOTS
  {
    hide SetStatus;
    StatusOnly(s, i, st, cfg);
    StatusOnly(HandBack(s, i), i, st, cfg);
  }

  /** Lorentz_blocked_upstream_by_header(): the query is blocked with this status, once, and its
      reply is NXDOMAIN in any case. */
  lemma HeaderEffect(s: State, i: nat, st: Status, cfg: Config)
    requires Inv(s) && IsLive(s, i)
    ensures |s.slots| == OVERTIME_SLOTS
    ensures var q, r := s.queries[i], BlockedByHeader(s, i, st, cfg);
            && i < |r.queries|
            && r.queries[i] == (if IsBlocked(q.status) then q else Blocked(q, st)).(reply := Nxdomain, answered := true)
  {
    hide InvFrom, Fetchable, QueryBlocked, SetReply, SetStatus;
    LiveSlots(s, i);
    hide Inv;
    if !IsBlocked(s.queries[i].status) {
      BlockAt(s, i, st, cfg);
    } else {
      BlockedAgain(s, i, st, cfg);
    }
    ReplyAndComplete(QueryBlocked(s, i, st, cfg), i, Nxdomain);
  }

  lemma BlockedAgain(s: State, i: nat, st: Status, cfg: Config)
    requires |s.slots| == OVERTIME_SLOTS && i < |s.queries| && IsBlocked(s.queries[i].status)
    ensures QueryBlocked(s, i, st, cfg) == s
  {
    hide SetStatus;
  }

  /** Lorentz_dnssec() after a failed validation: a query without a reply is recorded as not
      replied to, any other one stays as it is. */
  lemma DropEffect(s: State, i: nat)
    requires i < |s.queries|
    ensures var q, r := s.queries[i], DropReply(s, i);
            && (q.reply != NoReply ==> r == s)
            && (q.reply == NoReply ==> i < |r.queries| && r.queries[i] == q.(reply := Dropped, answered := true))
  {
  }

  /** Lorentz_forwarding_retried(): the server is known afterwards, and the query is marked as
      retried, or as awaiting keys if it is the validation that is retried. */
  lemma RetryEffect(s: State, i: nat, ip: string, port: nat, dnssec: bool, cfg: Config)
    requires Inv(s) && IsLive(s, i)
    ensures |s.slots| == OVERTIME_SLOTS
    ensures var q, r := s.queries[i], Retrying(s, i, ip, port, dnssec, cfg);
            && r.queries == s.queries[i := q.(status := r.queries[i].status)]
            && (r.queries[i].status == RetriedDnssec <==> dnssec) && (r.queries[i].status == Retried <==> !dnssec)
            && (exists u :: Serves(s.upstreams, r.upstreams, u, ip, port))
            && forall v: int :: CountOf(r.upstreams, v) == CountOf(s.upstreams, v)
  {
    hide InvFrom, Fetchable, SetStatus, FindUpstream;
    LiveSlots(s, i);
    hide Inv;
    FindUpstreamServes(s, ip, port);
    StatusOnly(FindUpstream(s, ip, port), i, if dnssec then RetriedDnssec else Retried, cfg);
  }

  /** Lorentz_multiple_replies(): the duplicate ends with the reply and the CNAME target of its
      source, complete, and with its status unless that is "forwarded": a duplicate was never
      forwarded itself. */
  lemma DuplicateEffect(s: State, src: nat, i: nat, cfg: Config)
    requires Inv(s) && IsLive(s, src) && IsLive(s, i)
    ensures |s.slots| == OVERTIME_SLOTS
    ensures var q, source, r := s.queries[i], s.queries[src], Duplicate(s, src, i, cfg);
            r.queries == s.queries[i := q.(reply := source.reply, complete := true, cname := source.cname,
                                           status := if source.status == Forwarded then q.status else source.status)]
  {
    hide InvFrom, Fetchable, SetStatus;
    LiveSlots(s, i);
    hide Inv;
    var q, source := s.queries[i], s.queries[src];
    var s1 := s.(reply := Bump(Bump(s.reply, q.reply, -1), source.reply, 1),
                 queries := s.queries[i := q.(reply := source.reply, complete := true)]);
    StatusOnly(HoldCname(s1, i, source.cname), i, source.status, cfg);
  }

  // ---- Arrivals ----

  /** _Lorentz_new_query(): an analysed query is appended, with the number of dnsmasq's ID, the
      given time and type, nothing known about it yet, and with records that carry the client's
      address and the queried name, which counts as last queried now. A query that is not
      analysed is not stored, but its client is known. */
  lemma ArriveEffect(s: State, e: Event, cfg: Config)
    requires Inv(s) && Enabled(s, e) && e.Arrive?
    ensures var r := Step(s, e, cfg);
            && (!e.analysed ==> r.queries == s.queries && exists c :: c in r.clients.live && r.clients.live[c].key == e.ip)
            && (e.analysed ==>
                 && |r.queries| == |s.queries| + 1 && r.queries[..|s.queries|] == s.queries
                 && var q := r.queries[|s.queries|];
                    && (q.id == e.id || q.id == -e.id) && q.id >= 0 && q.timestamp == e.now && q.qtype == e.t
                    && q.status == Unknown && q.reply == NoReply && q.upstreamID == -1 && q.cname == -1
                    && !q.allowed && !q.complete && !q.counted && !q.answered && !q.released
                    && q.clientID in r.clients.live && r.clients.live[q.clientID].key == e.ip
                    && q.domainID in r.domains.live && r.domains.live[q.domainID].key == e.name
                    && r.domains.live[q.domainID].data.lastQuery == e.now
                    && q.cacheID in r.caches.live
                    && r.caches.live[q.cacheID].key == CacheKey(q.domainID, q.clientID, e.t))
  {
    hide Inv, InvFrom, Enrol, Enrolled, NewQuery, Shaped, InWindow;
    ArriveEnrols(s, e);
    EnrolNames(s, e.ip, e.name, e.t);
    if e.analysed {
      NewQueryIs(s, e);
    } else {
      NotAnalysed(s, e);
    }
  }

  lemma ArriveEnrols(s: State, e: Event)
    requires Inv(s) && Enabled(s, e) && e.Arrive?
    ensures Enrolled(Enrol(s, e.ip, e.name, e.t))
  {
    hide InvFrom, Enrol, Enrolled;
    EnrolReady(s, s.removed, e.ip, e.name, e.t);
  }

  lemma EnrolNames(s: State, ip: string, name: string, t: QType)
    ensures var f := Enrol(s, ip, name, t);
            && f.state.queries == s.queries
            && f.clientID in f.state.clients.live && f.state.clients.live[f.clientID].key == ip
            && f.domainID in f.state.domains.live && f.state.domains.live[f.domainID].key == name
            && f.cacheID in f.state.caches.live && f.state.caches.live[f.cacheID].key == CacheKey(f.domainID, f.clientID, t)
  {
    hide NextId;
  }

  lemma NewQueryIs(s: State, e: Event)
    requires e.Arrive? && e.analysed && Enrolled(Enrol(s, e.ip, e.name, e.t))
    ensures var f, r := Enrol(s, e.ip, e.name, e.t), NewQuery(s, e.ip, e.name, e.t, e.id, e.now, e.analysed);
            && r.queries == f.state.queries + [FreshQuery(e.id, e.now, e.t, f.domainID, f.clientID, f.cacheID)]
            && (forall c :: c in f.state.clients.live ==> c in r.clients.live && r.clients.live[c].key == f.state.clients.live[c].key)
            && (forall c :: c in f.state.domains.live ==> c in r.domains.live && r.domains.live[c].key == f.state.domains.live[c].key)
            && (forall c :: c in f.state.caches.live ==> c in r.caches.live && r.caches.live[c].key == f.state.caches.live[c].key)
            && f.domainID in r.domains.live && r.domains.live[f.domainID].data.lastQuery == e.now
  {
    hide Enrol, GetId;
  }

  lemma NotAnalysed(s: State, e: Event)
    requires e.Arrive? && !e.analysed && Enrolled(Enrol(s, e.ip, e.name, e.t))
    ensures var r := NewQuery(s, e.ip, e.name, e.t, e.id, e.now, e.analysed);
            && r.queries == s.queries
            && ClientId(s, e.ip) in r.clients.live && r.clients.live[ClientId(s, e.ip)].key == e.ip
  {
    hide Enrol, Enrolled, NextId;
  }

  // ---- CNAME hops ----

  // The status of a chain blocked for one of its targets, by the list that has the target
  predicate CnameStatus(st: Status, chain: Status) {
    match st
    case Gravity => chain == GravityCname
    case Regex => chain == RegexCname
    case Denylist => chain == DenylistCname
    case _ => chain == st
  }

  // Neither tables of records nor the targets the DNS cache records hold have changed
  ghost predicate SameTargets(s: State, r: State) {
    && r.domains == s.domains && r.clients == s.clients && r.caches.live.Keys == s.caches.live.Keys
    && forall c :: c in s.caches.live ==> r.caches.live[c].data.cname == s.caches.live[c].data.cname
  }

  lemma StatusTargets(s: State, i: nat, st: Status, cfg: Config)
    requires |s.slots| == OVERTIME_SLOTS && i < |s.queries|
    ensures SameTargets(s, SetStatus(s, i, st, cfg))
  {
    hide GetId, Restatus, Memorise, Bump;
    MemoriseTargets(s, i, st, cfg);
  }

  lemma MemoriseTargets(s: State, i: nat, st: Status, cfg: Config)
    requires i < |s.queries|
    ensures SameTargets(s, Memorise(s, i, st, cfg))
  {
    hide Memorised;
  }

  lemma BlockTargets(s: State, i: nat, st: Status, cfg: Config)
    requires |s.slots| == OVERTIME_SLOTS && i < |s.queries|
    ensures SameTargets(s, QueryBlocked(s, i, st, cfg))
  {
    hide SetStatus;
    StatusTargets(s, i, st, cfg);
    StatusTargets(HandBack(s, i), i, st, cfg);
  }

  // What the answer of the lists makes of a query that was not blocked
  function Ruled(q: Query, d: Decision): Query {
    if d.block then Blocked(q.(allowed := d.allowed), d.status) else q.(allowed := d.allowed)
  }

  lemma DecisionEffect(s: State, i: nat, d: Decision, cfg: Config)
    requires |s.slots| == OVERTIME_SLOTS && i < |s.queries| && s.queries[i].cacheID in s.caches.live
    requires !IsBlocked(s.queries[i].status)
    ensures var r := ApplyDecision(s, i, d, cfg);
            && r.1 == d.block && r.0.queries == s.queries[i := Ruled(s.queries[i], d)]
            && |r.0.slots| == OVERTIME_SLOTS && SameTargets(s, r.0)
  {
    hide QueryBlocked, IsBlocked;
    var k := s.queries[i].cacheID;
    var c := s.caches.live[k].data;
    var s1 := WithQuery(s, i, s.queries[i].(allowed := d.allowed));
    var s2 := if d.status == SpecialDomain then WithCache(s1, k, c.(verdict := c.verdict.(blocking := SpecialDomain))) else s1;
    BlockAt(s2, i, d.status, cfg);
    BlockTargets(s2, i, d.status, cfg);
  }

  // A name other than the queried one is looked up in the lists, whatever the record remembers
  lemma AskEffect(s: State, i: nat, name: string, domainID: nat, lists: Lists, cfg: Config)
    requires |s.slots| == OVERTIME_SLOTS && i < |s.queries| && cfg.enabled
    requires s.queries[i].cacheID in s.caches.live && s.queries[i].clientID in s.clients.live
    requires !IsBlocked(s.queries[i].status) && !s.queries[i].allowed && s.queries[i].domainID != domainID
    ensures var d := Decide(lists, cfg, name, s.clients.live[s.queries[i].clientID].key, s.queries[i].qtype, false);
            var r := CheckBlocking(s, i, name, domainID, lists, cfg);
            && r.1 == d.block && r.0.queries == s.queries[i := Ruled(s.queries[i], d)]
            && |r.0.slots| == OVERTIME_SLOTS && SameTargets(s, r.0)
  {
    hide ApplyDecision, ApplyVerdict, Decide, Current, IsBlocked, Ruled;
    var q := s.queries[i];
    var c := s.caches.live[q.cacheID].data;
    var s1 := WithCache(s, q.cacheID, c.(verdict := Current(c.verdict, q.timestamp, cfg.ttl)));
    DecisionEffect(s1, i, Decide(lists, cfg, name, s.clients.live[q.clientID].key, q.qtype, false), cfg);
  }

  function Refs(s: State, d: nat): int {
    if d in s.domains.live then s.domains.live[d].data.cnameRefs else 0
  }

  lemma SameRefs(s: State, r: State, d: nat)
    requires r.domains == s.domains
    ensures Refs(r, d) == Refs(s, d)
  {
  }

  // The same domains, with other reference counts at most
  ghost predicate SameDomains(s: State, r: State) {
    && r.domains.live.Keys == s.domains.live.Keys
    && forall d :: d in s.domains.live ==>
         && r.domains.live[d].key == s.domains.live[d].key
         && r.domains.live[d].data.lastQuery == s.domains.live[d].data.lastQuery
  }

  lemma HoldEffect(s: State, i: nat, x: nat)
    requires i < |s.queries| && x in s.domains.live
    ensures var r := HoldCname(s, i, x);
            && |r.queries| == |s.queries| && r.queries[i] == s.queries[i].(cname := x)
            && r.caches == s.caches && r.slots == s.slots && SameDomains(s, r)
            && forall d :: d in s.domains.live ==> Refs(r, d) == Refs(s, d) + One(d == x)
  {
  }

  lemma RecordEffect(s: State, k: nat, x: nat)
    requires k in s.caches.live && x in s.domains.live
    ensures var r, held := CacheHold(s, k, x), s.caches.live[k].data.cname;
            && r.queries == s.queries && r.slots == s.slots && SameDomains(s, r)
            && k in r.caches.live && r.caches.live[k].data.cname == x
            && forall d :: d in s.domains.live ==>
                 Refs(r, d) == Refs(s, d) + One(d == x && held != x) - One(d == held && held != x)
  {
    hide BumpCname, Refs;
    var data := s.caches.live[k].data;
    var s1 := BumpCname(s, data.cname, -1);
    BumpEffect(s, data.cname, -1);
    var s2 := WithCache(s1, k, data.(cname := x));
    forall d: nat {
      SameRefs(s1, s2, d);
    }
    BumpEffect(s2, x, 1);
  }

  lemma BumpEffect(s: State, x: int, n: int)
    ensures var r := BumpCname(s, x, n);
            && r == s.(domains := r.domains) && SameDomains(s, r)
            && forall d :: d in s.domains.live ==> Refs(r, d) == Refs(s, d) + if d == x then n else 0
  {
  }

  // A block found at target x: the query and its record refer to x, the query by one new
  // reference and the record by the one it moves there
  lemma TargetEffect(s: State, i: nat, x: nat, reply: Reply, cfg: Config)
    requires |s.slots| == OVERTIME_SLOTS && i < |s.queries| && s.queries[i].cacheID in s.caches.live && x in s.domains.live
    ensures var q, r := s.queries[i], BlockedByCname(s, i, x, reply, cfg);
            var held := s.caches.live[q.cacheID].data.cname;
            && i < |r.queries|
            && r.queries[i] == q.(reply := reply, answered := true, cname := x, status := CnameOf(q.status))
            && q.cacheID in r.caches.live && r.caches.live[q.cacheID].data.cname == x
            && SameDomains(s, r)
            && (forall d :: d in s.domains.live ==>
                 Refs(r, d) == Refs(s, d) + One(d == x) + One(d == x && held != x) - One(d == held && held != x))
  {
    hide SetStatus, SetReply, CnameOf, HoldCname, CacheHold, Refs;
    var k := s.queries[i].cacheID;
    var s0 := SetReply(s, i, reply);
    ReplyAndComplete(s, i, reply);
    ReplyTables(s, i, reply);
    var s1 := HoldCname(s0, i, x);
    HoldEffect(s0, i, x);
    var s2 := CacheHold(s1, k, x);
    RecordEffect(s1, k, x);
    var r := SetStatus(s2, i, CnameOf(s2.queries[i].status), cfg);
    StatusOnly(s2, i, CnameOf(s2.queries[i].status), cfg);
    StatusTargets(s2, i, CnameOf(s2.queries[i].status), cfg);
    assert r == BlockedByCname(s, i, x, reply, cfg);
    forall d | d in s.domains.live
      ensures Refs(r, d) == Refs(s2, d) && Refs(s0, d) == Refs(s, d)
    {
      SameRefs(s2, r, d);
      SameRefs(s, s0, d);
    }
  }

  lemma ReplyTables(s: State, i: nat, x: Reply)
    requires i < |s.queries|
    ensures SetReply(s, i, x).domains == s.domains && SetReply(s, i, x).caches == s.caches
  {
  }

  // The target is interned and counts as last queried now
  lemma ChildEffect(s: State, child: string, now: real)
    ensures var r, x := WithChild(s, child, now), DomainId(s, child);
            && r == s.(domains := r.domains) && x in r.domains.live
            && r.domains.live[x].key == child && r.domains.live[x].data.lastQuery == now
            && forall d :: d in s.domains.live && d != x ==> d in r.domains.live && r.domains.live[d] == s.domains.live[d]
  {
    hide NextId;
  }

  /** LORENTZ_CNAME(): a query that is neither blocked nor allowed yet, and a target other than
      the queried name. The hook answers what the lists say about the target. If they block it,
      the query is recorded as blocked for the CNAME, with the status of the list that has the
      target, the CNAME reply, and the target as the reason, in the query and in its DNS cache
      record. If they do not, at most the allowed flag changes. The target counts as queried. */
  lemma HopEffect(s: State, i: nat, child: string, now: real, reply: Reply, lists: Lists, cfg: Config)
    requires Inv(s) && IsLive(s, i) && cfg.enabled && Fetchable(s, i)
    requires !IsBlocked(s.queries[i].status) && !s.queries[i].allowed
    requires s.domains.live[s.queries[i].domainID].key != child
    ensures var q, r, x := s.queries[i], Cname(s, i, child, now, reply, lists, cfg), DomainId(s, child);
            var d := Decide(lists, cfg, child, s.clients.live[q.clientID].key, q.qtype, false);
            && r.1 == d.block
            && x in r.0.domains.live && r.0.domains.live[x].key == child && r.0.domains.live[x].data.lastQuery == now
            && i < |r.0.queries|
            && var p := r.0.queries[i];
               if d.block then
                 && CnameStatus(d.status, p.status)
                 && p == Blocked(q, p.status).(allowed := d.allowed, reply := reply, answered := true, cname := x)
                 && q.cacheID in r.0.caches.live && r.0.caches.live[q.cacheID].data.cname == x
               else p == q.(allowed := d.allowed)
  {
    hide InvFrom, Inv, WithChild, DomainId, Decide, CheckBlocking, BlockedByCname, CnameOf, IsBlocked;
    var q, x := s.queries[i], DomainId(s, child);
    var s2 := WithChild(s, child, now);
    ChildEffect(s, child, now);
    OtherDomain(s, i, child);
    AskEffect(s2, i, child, x, lists, cfg);
    var d := Decide(lists, cfg, child, s.clients.live[q.clientID].key, q.qtype, false);
    var b := CheckBlocking(s2, i, child, x, lists, cfg);
    if d.block {
      TargetEffect(b.0, i, x, reply, cfg);
      CnameOfStatus(d.status);
    }
  }

  lemma CnameOfStatus(st: Status)
    ensures CnameStatus(st, CnameOf(st))
  {
  }

  // ---- Events ----

  /** In a store with the invariant no hook finds a record missing: every event does what its hook
      does with the records it looks up. */
  lemma EventIs(s: State, e: Event, cfg: Config)
    requires Inv(s) && Enabled(s, e)
    ensures |s.slots| == OVERTIME_SLOTS
    ensures match e
            case Check(i, lists) => Fetchable(s, i) && Step(s, e, cfg) == Filter(s, i, lists, cfg).0
            case Hop(i, child, now, reply, lists) =>
              Fetchable(s, i) && Step(s, e, cfg) == Cname(s, i, child, now, reply, lists, cfg).0
            case Forward(i, ip, port) => Step(s, e, cfg) == ForwardTo(s, i, ip, port, cfg)
            case Respond(i, a) => Step(s, e, cfg) == ReplyTo(s, i, a, cfg)
            case Fail(i, server, reply) => Step(s, e, cfg) == FailWith(s, i, server, reply)
            case BlockByHeader(i, st) => Step(s, e, cfg) == BlockedByHeader(s, i, st, cfg)
            case BlockByAddress(i, st) => Step(s, e, cfg) == QueryBlocked(s, i, st, cfg)
            case Retry(i, ip, port, dnssec) => Step(s, e, cfg) == Retrying(s, i, ip, port, dnssec, cfg)
            case Wait(i) => Step(s, e, cfg).queries == s.queries[i := s.queries[i].(status := InProgress)]
            case Drop(i) => Step(s, e, cfg) == DropReply(s, i)
            case Merge(src, i) => Step(s, e, cfg) == Duplicate(s, src, i, cfg)
            case Finish(now) => s.removed <= |s.queries| && Step(s, e, cfg) == GcEnd(s, now)
            case ReloadLists => Step(s, e, cfg) == Reload(s)
            case RetryUnknown(ip, port) => Step(s, e, cfg) == FindUpstream(s, ip, port)
            case Collect(mintime) => Step(s, e, cfg) == GcBegin(s, mintime, cfg)
            case Flush(t) =>
              && GcBegin(s, t, cfg).gc.Some? && GcBegin(s, t, cfg).removed <= |GcBegin(s, t, cfg).queries|
              && Step(s, e, cfg) == GcEnd(GcBegin(s, t, cfg), t as real)
            case Arrive(ip, name, t, id, now, analysed) =>
              && Enrolled(Enrol(s, ip, name, t))
              && Step(s, e, cfg) == NewQuery(s, ip, name, t, id, now, analysed)
  {
    hide Enrol, Enrolled, NewQuery, Filter, Cname, Duplicate, Reload, GcBegin, GcEnd, FindUpstream;
    hide ForwardTo, ReplyTo, FailWith, BlockedByHeader, QueryBlocked, Retrying, SetStatus, DropReply;
    hide InvFrom, Inv, Shaped, QueryOk;
    InvBounded(s);
    match e {
      case Check(i, _) => LiveSlots(s, i);
      case Hop(i, _, _, _, _) => LiveSlots(s, i);
      case Forward(i, _, _) => LiveSlots(s, i);
      case Respond(i, _) => LiveSlots(s, i);
      case Fail(i, _, _) => LiveSlots(s, i);
      case BlockByHeader(i, _) => LiveSlots(s, i);
      case BlockByAddress(i, _) => LiveSlots(s, i);
      case Retry(i, _, _, _) => LiveSlots(s, i);
      case Wait(i) =>
        LiveSlots(s, i);
        StatusOnly(s, i, InProgress, cfg);
      case Drop(i) => LiveSlots(s, i);
      case Merge(src, i) =>
        LiveSlots(s, src);
        LiveSlots(s, i);
      case Flush(t) => BeginBounded(s, t, cfg);
      case Arrive(_, _, _, _, _, _) => ArriveEnrols(s, e);
      case _ =>
    }
  }

  lemma BeginBounded(s: State, t: int, cfg: Config)
    requires Inv(s) && s.gc.None?
    ensures GcBegin(s, t, cfg).gc.Some? && GcBegin(s, t, cfg).removed <= |GcBegin(s, t, cfg).queries|
  {
    hide Inv, RetractFrom;
    GcBeginKeeps(s, t, cfg);
    InvBounded(GcBegin(s, t, cfg));
  }

  lemma InvBounded(s: State)
    requires Inv(s)
    ensures |s.slots| == OVERTIME_SLOTS && s.removed <= |s.queries|
  {
    hide InvFrom;
    InvSlots(s, s.removed);
    hide Aligned;
  }
}
