// The records of the in-memory store (src/datastructure.h, src/enums.h) and the
// one notion every counter of the store is checked against: how many queries of
// a sequence hit a given tally.
module Records {

  type byte = x: int | 0 <= x < 256

  datatype Option<+T> = None | Some(value: T)

  datatype Status =
    | Unknown | Gravity | Forwarded | Cache | Regex | Denylist
    | ExternalIp | ExternalNull | ExternalNxra
    | GravityCname | RegexCname | DenylistCname
    | Retried | RetriedDnssec | InProgress | DbBusy
    | SpecialDomain | CacheStale | ExternalEde15

  datatype Reply =
    | NoReply | Nodata | Nxdomain | CnameReply | Ip | DomainName | Rrname
    | Servfail | Refused | Notimp | Other | Dnssec | Dropped | Blob

  datatype QType =
    | TypeNone | A | Aaaa | Any | Srv | Soa | Ptr | Txt | Naptr | Mx
    | Ds | Rrsig | Dnskey | Ns | TypeOther | Svcb | Https

  predicate IsBlocked(s: Status) {
    match s
    case Gravity | Regex | Denylist | ExternalIp | ExternalNull | ExternalNxra | ExternalEde15
       | GravityCname | RegexCname | DenylistCname | DbBusy | SpecialDomain => true
    case _ => false
  }

  predicate IsCached(s: Status) {
    s == Cache || s == CacheStale
  }

  // Blocked by the answer of an upstream server
  predicate IsExternal(s: Status) {
    s == ExternalIp || s == ExternalNull || s == ExternalNxra || s == ExternalEde15
  }

  /** Every status is one of four kinds: blocked, answered from the cache, forwarded, or not settled
      yet. */
  lemma StatusKinds(s: Status)
    ensures var open := s in {Unknown, Retried, RetriedDnssec, InProgress};
            && (IsBlocked(s) || IsCached(s) || s == Forwarded || open)
            && !(IsBlocked(s) && IsCached(s)) && !((IsBlocked(s) || IsCached(s)) && (s == Forwarded || open))
            && (IsExternal(s) ==> IsBlocked(s)) && (IsCached(s) ==> s == Cache || s == CacheStale)
  {
  }

  /** queriesData. `cname` is -1 unless a CNAME target blocked the query, `upstreamID`
      is -1 until the query was forwarded. `counted` is flags.upstream_counted, `answered`
      is flags.response_calculated. `released` is not part of the struct: it records that
      the blocking hook let dnsmasq go on with this query. */
  datatype Query = Query(
    id: int, timestamp: real, qtype: QType,
    domainID: nat, clientID: nat, cacheID: nat,
    upstreamID: int, cname: int,
    status: Status, reply: Reply,
    allowed: bool, complete: bool, counted: bool, answered: bool, released: bool)

  const OVERTIME_INTERVAL := 600
  const OVERTIME_SLOTS := 145

  // The ten-minute interval a timestamp falls into, counted from the epoch
  function Interval(t: real): int {
    t.Floor / OVERTIME_INTERVAL
  }

  /** Everything the store counts queries by. */
  datatype Tally =
    | OfStatus(s: Status)
    | OfReply(r: Reply)
    | OfType(t: QType)
    | OfDomain(d: nat)
    | OfClient(c: nat)
    | OfCache(k: nat)
    | OfUpstream(u: int)
    | OfSlot(n: int)
    | OfBlockedSlot(n: int)
    | OfCachedSlot(n: int)
    | OfForwardedSlot(n: int)
    | OfClientSlot(c: nat, n: int)
    | OfCname(x: int)

  predicate Hits(q: Query, k: Tally) {
    match k
    case OfStatus(s) => q.status == s
    case OfReply(r) => q.reply == r
    case OfType(t) => q.qtype == t
    case OfDomain(d) => q.domainID == d
    case OfClient(c) => q.clientID == c
    case OfCache(c) => q.cacheID == c
    case OfUpstream(u) => q.counted && q.upstreamID == u
    case OfSlot(n) => Interval(q.timestamp) == n
    case OfBlockedSlot(n) => Interval(q.timestamp) == n && IsBlocked(q.status)
    case OfCachedSlot(n) => Interval(q.timestamp) == n && IsCached(q.status)
    case OfForwardedSlot(n) => Interval(q.timestamp) == n && q.status == Forwarded
    case OfClientSlot(c, n) => q.clientID == c && Interval(q.timestamp) == n
    case OfCname(x) => q.cname == x
  }

  function Hit(q: Query, k: Tally): int {
    if Hits(q, k) then 1 else 0
  }

  function Count(qs: seq<Query>, k: Tally): nat {
    if qs == [] then 0 else Hit(qs[0], k) + Count(qs[1..], k)
  }

  lemma {:induction false} CountConcat(a: seq<Query>, b: seq<Query>, k: Tally)
    ensures Count(a + b, k) == Count(a, k) + Count(b, k)
  {
    if a == [] {
      assert a + b == b;
    } else {
      assert (a + b)[1..] == a[1..] + b;
      CountConcat(a[1..], b, k);
    }
  }

  // Queries that fall under the same counters count the same
  lemma {:induction false} CountAlike(a: seq<Query>, b: seq<Query>, k: Tally)
    requires |a| == |b| && forall i :: 0 <= i < |a| ==> Hit(a[i], k) == Hit(b[i], k)
    ensures Count(a, k) == Count(b, k)
  {
    if a != [] {
      assert forall i :: 0 <= i < |a[1..]| ==> a[1..][i] == a[i + 1] && b[1..][i] == b[i + 1];
      CountAlike(a[1..], b[1..], k);
    }
  }

  lemma CountOne(q: Query, k: Tally)
    ensures Count([q], k) == Hit(q, k)
  {
    assert [q][1..] == [];
  }

  // Replacing one query moves the count by the difference of the two queries
  lemma CountSet(qs: seq<Query>, i: nat, q: Query, k: Tally)
    requires i < |qs|
    ensures Count(qs[i := q], k) == Count(qs, k) - Hit(qs[i], k) + Hit(q, k)
  {
    assert qs == qs[..i] + ([qs[i]] + qs[i + 1..]);
    assert qs[i := q] == qs[..i] + ([q] + qs[i + 1..]);
    CountConcat(qs[..i], [qs[i]] + qs[i + 1..], k);
    CountConcat(qs[..i], [q] + qs[i + 1..], k);
    CountConcat([qs[i]], qs[i + 1..], k);
    CountConcat([q], qs[i + 1..], k);
    CountOne(qs[i], k);
    CountOne(q, k);
  }

  lemma CountPositive(qs: seq<Query>, i: nat, k: Tally)
    requires i < |qs| && Hits(qs[i], k)
    ensures Count(qs, k) > 0
  {
    assert qs == qs[..i] + ([qs[i]] + qs[i + 1..]);
    CountConcat(qs[..i], [qs[i]] + qs[i + 1..], k);
    CountConcat([qs[i]], qs[i + 1..], k);
    CountOne(qs[i], k);
  }

  lemma {:induction false} CountWitness(qs: seq<Query>, k: Tally) returns (i: nat)
    requires Count(qs, k) > 0
    ensures i < |qs| && Hits(qs[i], k)
  {
    if Hits(qs[0], k) {
      i := 0;
    } else {
      var j := CountWitness(qs[1..], k);
      i := j + 1;
    }
  }

  // A tally nobody hits unless another one is hit counts no more than that one
  lemma {:induction false} CountBelow(qs: seq<Query>, k: Tally, l: Tally)
    requires forall i :: 0 <= i < |qs| && Hits(qs[i], k) ==> Hits(qs[i], l)
    ensures Count(qs, k) <= Count(qs, l)
  {
    if qs != [] {
      assert forall i :: 0 <= i < |qs[1..]| ==> qs[1..][i] == qs[i + 1];
      CountBelow(qs[1..], k, l);
    }
  }

  // ---- Tallies that partition the queries sum to the number of queries ----

  function HitSum(q: Query, ks: seq<Tally>): int {
    if ks == [] then 0 else Hit(q, ks[0]) + HitSum(q, ks[1..])
  }

  function CountSum(qs: seq<Query>, ks: seq<Tally>): int {
    if ks == [] then 0 else Count(qs, ks[0]) + CountSum(qs, ks[1..])
  }

  lemma {:induction false} CountSumCons(q: Query, qs: seq<Query>, ks: seq<Tally>)
    ensures CountSum([q] + qs, ks) == HitSum(q, ks) + CountSum(qs, ks)
  {
    if ks != [] {
      CountConcat([q], qs, ks[0]);
      CountOne(q, ks[0]);
      CountSumCons(q, qs, ks[1..]);
    }
  }

  lemma {:induction false} CountSumEmpty(ks: seq<Tally>)
    ensures CountSum([], ks) == 0
  {
    if ks != [] {
      CountSumEmpty(ks[1..]);
    }
  }

  lemma {:induction false} PartitionSums(qs: seq<Query>, ks: seq<Tally>)
    requires forall i :: 0 <= i < |qs| ==> HitSum(qs[i], ks) == 1
    ensures CountSum(qs, ks) == |qs|
  {
    if qs == [] {
      CountSumEmpty(ks);
    } else {
      assert forall i :: 0 <= i < |qs[1..]| ==> qs[1..][i] == qs[i + 1];
      PartitionSums(qs[1..], ks);
      CountSumCons(qs[0], qs[1..], ks);
      assert [qs[0]] + qs[1..] == qs;
    }
  }

  // Exactly one of the tallies is hit
  lemma {:induction false} HitSumOne(q: Query, ks: seq<Tally>, j: nat)
    requires j < |ks| && forall i :: 0 <= i < |ks| ==> (Hits(q, ks[i]) <==> i == j)
    ensures HitSum(q, ks) == 1
  {
    assert forall i :: 0 <= i < |ks[1..]| ==> ks[1..][i] == ks[i + 1];
    if j == 0 {
      HitSumNone(q, ks[1..]);
    } else {
      HitSumOne(q, ks[1..], j - 1);
    }
  }

  lemma {:induction false} HitSumNone(q: Query, ks: seq<Tally>)
    requires forall i :: 0 <= i < |ks| ==> !Hits(q, ks[i])
    ensures HitSum(q, ks) == 0
  {
    if ks != [] {
      HitSumNone(q, ks[1..]);
    }
  }

  function StatusCode(s: Status): nat {
    match s
    case Unknown => 0 case Gravity => 1 case Forwarded => 2 case Cache => 3 case Regex => 4 case Denylist => 5
    case ExternalIp => 6 case ExternalNull => 7 case ExternalNxra => 8
    case GravityCname => 9 case RegexCname => 10 case DenylistCname => 11
    case Retried => 12 case RetriedDnssec => 13 case InProgress => 14 case DbBusy => 15
    case SpecialDomain => 16 case CacheStale => 17 case ExternalEde15 => 18
  }

  function ReplyCode(r: Reply): nat {
    match r
    case NoReply => 0 case Nodata => 1 case Nxdomain => 2 case CnameReply => 3 case Ip => 4 case DomainName => 5
    case Rrname => 6 case Servfail => 7 case Refused => 8 case Notimp => 9 case Other => 10 case Dnssec => 11
    case Dropped => 12 case Blob => 13
  }

  function TypeCode(t: QType): nat {
    match t
    case TypeNone => 0 case A => 1 case Aaaa => 2 case Any => 3 case Srv => 4 case Soa => 5
    case Ptr => 6 case Txt => 7 case Naptr => 8 case Mx => 9 case Ds => 10 case Rrsig => 11
    case Dnskey => 12 case Ns => 13 case TypeOther => 14 case Svcb => 15 case Https => 16
  }

  // The enumerators in the order of src/enums.h
  const STATUSES: seq<Status> := [
    Unknown, Gravity, Forwarded, Cache, Regex, Denylist, ExternalIp, ExternalNull, ExternalNxra,
    GravityCname, RegexCname, DenylistCname, Retried, RetriedDnssec, InProgress, DbBusy,
    SpecialDomain, CacheStale, ExternalEde15]

  const REPLIES: seq<Reply> := [
    NoReply, Nodata, Nxdomain, CnameReply, Ip, DomainName, Rrname,
    Servfail, Refused, Notimp, Other, Dnssec, Dropped, Blob]

  const TYPES: seq<QType> := [
    TypeNone, A, Aaaa, Any, Srv, Soa, Ptr, Txt, Naptr, Mx,
    Ds, Rrsig, Dnskey, Ns, TypeOther, Svcb, Https]

  // The counter arrays, one tally per enumerator
  function StatusTallies(): seq<Tally> { seq(|STATUSES|, i requires 0 <= i < |STATUSES| => OfStatus(STATUSES[i])) }
  function ReplyTallies(): seq<Tally> { seq(|REPLIES|, i requires 0 <= i < |REPLIES| => OfReply(REPLIES[i])) }
  function TypeTallies(): seq<Tally> { seq(|TYPES|, i requires 0 <= i < |TYPES| => OfType(TYPES[i])) }

  lemma StatusPartition(q: Query)
    ensures HitSum(q, StatusTallies()) == 1
  {
    HitSumOne(q, StatusTallies(), StatusCode(q.status));
  }

  lemma ReplyPartition(q: Query)
    ensures HitSum(q, ReplyTallies()) == 1
  {
    HitSumOne(q, ReplyTallies(), ReplyCode(q.reply));
  }

  lemma TypePartition(q: Query)
    ensures HitSum(q, TypeTallies()) == 1
  {
    HitSumOne(q, TypeTallies(), TypeCode(q.qtype));
  }
}
