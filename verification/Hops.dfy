// The CNAME hook over a whole chain of hops (src/dnsmasq_interface.c:2088-2266): the
// store blocks a chain exactly as the fold of the list chain does.
module Hops {
  import opened Records
  import opened Interning
  import opened OverTime
  import opened Blocking
  import opened Hashing
  import opened Store
  import opened Conservation
  import opened Hooks
  import opened Runs

  // Who asked what: the parts of a query its hops depend on
  datatype Asked = Asked(domain: string, client: string, t: QType, allowed: bool)

  ghost function AskedBy(s: State, i: nat): Asked
    requires Fetchable(s, i)
  {
    var q := s.queries[i];
    Asked(s.domains.live[q.domainID].key, s.clients.live[q.clientID].key, q.qtype, q.allowed)
  }

  ghost function HopDecision(a: Asked, child: string, lists: Lists, cfg: Config): Decision {
    Decide(lists, cfg, child, a.client, a.t, a.allowed)
  }

  // A hop other than the queried domain gets another domain ID
  lemma OtherDomain(s: State, i: nat, child: string)
    requires Inv(s) && IsLive(s, i) && Fetchable(s, i) && child != AskedBy(s, i).domain
    ensures DomainId(s, child) != s.queries[i].domainID
  {
    assert Interning.Allocatable(s.domains);
    hide Inv;
  }

  // The child is known, everything the query asks for is unchanged
  lemma WithChildAsked(s: State, i: nat, child: string, now: real)
    requires Inv(s) && IsLive(s, i) && Fetchable(s, i)
    ensures var r := WithChild(s, child, now);
            && InvFrom(r, s.removed) && r == s.(domains := r.domains) && Fetchable(r, i)
            && AskedBy(r, i) == AskedBy(s, i)
  {
    hide InvFrom, Shaped;
    WithChildKeeps(s, s.removed, child, now);
    var r := WithChild(s, child, now);
    InvQuery(r, s.removed, i);
    WithChildNames(s, child, now, s.queries[i].domainID);
  }

  lemma WithChildNames(s: State, child: string, now: real, d: nat)
    requires Inv(s) && d in s.domains.live
    ensures d in WithChild(s, child, now).domains.live
    ensures WithChild(s, child, now).domains.live[d].key == s.domains.live[d].key
  {
    assert Interning.Allocatable(s.domains);
    hide Inv;
  }

  lemma StaysAsked(s: State, from: nat, i: nat, r: State)
    requires Fetchable(s, i) && Good(s, from, i, r) && from <= i
    ensures Fetchable(r, i)
    ensures var a, b := AskedBy(s, i), AskedBy(r, i); b == a.(allowed := r.queries[i].allowed)
  {
    GoodBasics(s, from, i, r);
    InvQuery(r, from, i);
    assert SameKeys(s.domains, r.domains) && SameKeys(s.clients, r.clients);
    hide InvFrom, Shaped, Good;
  }

  // The check of a hop is the list chain's answer
  lemma HopChecks(s: State, from: nat, i: nat, child: string, x: nat, lists: Lists, cfg: Config)
    requires InvFrom(s, from) && from <= i < |s.queries| && Fetchable(s, i) && x != s.queries[i].domainID
    requires cfg.enabled && ListsAvailable(lists)
    ensures var b, d := CheckBlocking(s, i, child, x, lists, cfg), HopDecision(AskedBy(s, i), child, lists, cfg);
            && i < |b.0.queries| && b.1 == d.block && b.0.queries[i].allowed == d.allowed
  {
    var q := s.queries[i];
    var c := s.caches.live[q.cacheID].data;
    var s1 := WithCache(s, q.cacheID, c.(verdict := Current(c.verdict, q.timestamp, cfg.ttl)));
    DecideMeaning(lists, cfg, child, s.clients.live[q.clientID].key, q.qtype);
    hide InvFrom, ListsAvailable, Blocks, Allows, Aligned, Current;
    if !q.allowed {
      DecisionSets(s1, i, Decide(lists, cfg, child, s.clients.live[q.clientID].key, q.qtype, false), cfg);
    }
  }

  lemma DecisionSets(s: State, i: nat, d: Decision, cfg: Config)
    requires |s.slots| == OVERTIME_SLOTS && i < |s.queries| && s.queries[i].cacheID in s.caches.live
    ensures var a := ApplyDecision(s, i, d, cfg);
            i < |a.0.queries| && a.1 == d.block && a.0.queries[i].allowed == d.allowed
  {
    hide QueryBlocked;
    var k := s.queries[i].cacheID;
    var c := s.caches.live[k].data;
    var s1 := WithQuery(s, i, s.queries[i].(allowed := d.allowed));
    if d.block {
      if d.status == SpecialDomain {
        BlockedAllowed(WithCache(s1, k, c.(verdict := c.verdict.(blocking := SpecialDomain))), i, d.status, cfg);
      } else {
        BlockedAllowed(s1, i, d.status, cfg);
      }
    }
  }

  lemma BlockedAllowed(s: State, i: nat, st: Status, cfg: Config)
    requires |s.slots| == OVERTIME_SLOTS && i < |s.queries|
    ensures var r := QueryBlocked(s, i, st, cfg); i < |r.queries| && r.queries[i].allowed == s.queries[i].allowed
  {
    hide SetStatus, IsBlocked;
    StatusQueries(s, i, st, cfg);
    StatusQueries(HandBack(s, i), i, st, cfg);
  }

  lemma StatusQueries(s: State, i: nat, st: Status, cfg: Config)
    requires |s.slots| == OVERTIME_SLOTS && i < |s.queries|
    ensures SetStatus(s, i, st, cfg).queries == s.queries[i := s.queries[i].(status := st)]
  {
    hide GetId, Restatus, Memorise;
  }

  /** One hop: the hook answers what the chain answers for the child and this client, and
      carries the allowed flag on. */
  lemma HopDecides(s: State, i: nat, child: string, now: real, reply: Reply, lists: Lists, cfg: Config)
    requires Inv(s) && IsLive(s, i) && Fetchable(s, i) && child != AskedBy(s, i).domain
    requires cfg.enabled && ListsAvailable(lists)
    ensures var r, d := Cname(s, i, child, now, reply, lists, cfg), HopDecision(AskedBy(s, i), child, lists, cfg);
            && r.1 == d.block
            && (!d.block ==> Inv(r.0) && IsLive(r.0, i) && Fetchable(r.0, i)
                             && AskedBy(r.0, i) == AskedBy(s, i).(allowed := d.allowed))
  {
    var x, s2 := DomainId(s, child), WithChild(s, child, now);
    OtherDomain(s, i, child);
    WithChildAsked(s, i, child, now);
    hide Inv, InvFrom, WithChild, CheckBlocking, Good, AskedBy, HopDecision, ListsAvailable, BlockedByCname, DomainId;
    CheckBlockingGood(s2, s.removed, i, child, x, lists, cfg);
    HopChecks(s2, s.removed, i, child, x, lists, cfg);
    var b := CheckBlocking(s2, i, child, x, lists, cfg);
    GoodBasics(s2, s.removed, i, b.0);
    StaysAsked(s2, s.removed, i, b.0);
    if !b.1 {
      HopInv(s, b.0);
    }
  }

  lemma HopInv(s: State, r: State)
    requires Inv(s) && InvFrom(r, s.removed) && r.gc == s.gc && r.removed == s.removed
    ensures Inv(r)
  {
    hide InvFrom;
  }

  /** The hook called for one hop after another until it blocks. */
  ghost function HookAll(s: State, i: nat, hops: seq<string>, now: real, reply: Reply, lists: Lists, cfg: Config): (State, bool)
    decreases |hops|
  {
    if hops == [] || !Fetchable(s, i) then (s, false)
    else
      var r := Cname(s, i, hops[0], now, reply, lists, cfg);
      if r.1 then r else HookAll(r.0, i, hops[1..], now, reply, lists, cfg)
  }

  // What a fetchable query has, as the hook needs it
  lemma LiveRange(s: State, i: nat)
    requires Fetchable(s, i)
    ensures |s.slots| == OVERTIME_SLOTS && i < |s.queries|
    ensures s.queries[i].cacheID in s.caches.live && s.queries[i].clientID in s.clients.live
  {
    hide Aligned;
  }

  /** Hook after hook, the store does what the fold over the hop names says: the answer, and
      if it does not block, the allowed flag the query is left with. */
  lemma {:induction false} HookFolds(s: State, i: nat, hops: seq<string>, now: real, reply: Reply, lists: Lists, cfg: Config)
    requires Inv(s) && IsLive(s, i) && Fetchable(s, i)
    requires forall h :: h in hops ==> h != AskedBy(s, i).domain
    requires cfg.enabled && ListsAvailable(lists)
    ensures var a := AskedBy(s, i);
            var r, f := HookAll(s, i, hops, now, reply, lists, cfg), FoldHops(lists, cfg, hops, a.client, a.t, a.allowed);
            && r.1 == f.0
            && (!r.1 ==> Inv(r.0) && IsLive(r.0, i) && Fetchable(r.0, i) && AskedBy(r.0, i) == a.(allowed := f.1))
    decreases |hops|
  {
    hide Inv, Fetchable, Cname, AskedBy, Decide, ListsAvailable, IsLive;
    if hops != [] {
      LiveRange(s, i);
      assert hops[0] in hops;
      assert forall h :: h in hops[1..] ==> h in hops;
      HopDecides(s, i, hops[0], now, reply, lists, cfg);
      var r := Cname(s, i, hops[0], now, reply, lists, cfg);
      if !r.1 {
        HookFolds(r.0, i, hops[1..], now, reply, lists, cfg);
      }
    }
  }

  /** A query that is allowed goes through any chain and is allowed behind it. */
  lemma ChainsKeepAllowed(s: State, i: nat, hops: seq<string>, now: real, reply: Reply, lists: Lists, cfg: Config)
    requires Inv(s) && IsLive(s, i) && Fetchable(s, i) && AskedBy(s, i).allowed
    requires forall h :: h in hops ==> h != AskedBy(s, i).domain
    requires cfg.enabled && ListsAvailable(lists)
    ensures var r := HookAll(s, i, hops, now, reply, lists, cfg);
            !r.1 && Fetchable(r.0, i) && AskedBy(r.0, i) == AskedBy(s, i)
  {
    var a := AskedBy(s, i);
    HookFolds(s, i, hops, now, reply, lists, cfg);
    hide Inv, Fetchable, HookAll, AskedBy, FoldHops, ListsAvailable;
    FoldAllowed(lists, cfg, hops, a.client, a.t);
  }

  /** The hook blocks a CNAME chain exactly if some hop is denied and neither it nor an
      earlier hop is allowed, for a query that is not itself allowed; it never blocks a
      query that is. */
  lemma ChainsBlockedIff(s: State, i: nat, hops: seq<string>, now: real, reply: Reply, lists: Lists, cfg: Config)
    requires Inv(s) && IsLive(s, i) && Fetchable(s, i)
    requires forall h :: h in hops ==> h != AskedBy(s, i).domain
    requires cfg.enabled && ListsAvailable(lists)
    ensures var a := AskedBy(s, i);
            HookAll(s, i, hops, now, reply, lists, cfg).1 <==> !a.allowed && ChainDenied(lists, cfg, hops, a.client, a.t)
  {
    var a := AskedBy(s, i);
    HookFolds(s, i, hops, now, reply, lists, cfg);
    hide Inv, Fetchable, HookAll, AskedBy, FoldHops, ChainDenied, ListsAvailable;
    if a.allowed {
      FoldAllowed(lists, cfg, hops, a.client, a.t);
    } else {
      ChainMeaning(lists, cfg, hops, a.client, a.t);
    }
  }
}
