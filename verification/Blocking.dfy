// The blocking decision (src/dnsmasq_interface.c): the list chain, the verdict a DNS
// cache record memorises, and the fold of the chain over the hops of a CNAME path.
// What the lists contain is a parameter.
module Blocking {
  import opened Records

  datatype DbResult = NotFound | Found | Unavailable

  datatype Busy = BusyBlock | BusyAllow | BusyRefuse | BusyDrop

  /** What the lists say about one domain, asked by one client for one query type. */
  datatype View = View(
    allow: DbResult, allowRegex: bool, special: bool,
    deny: DbResult, antigravity: DbResult, gravity: DbResult, denyRegex: bool)

  type Lists = (string, string, QType) -> View

  datatype Config = Config(enabled: bool, blockEsni: bool, busy: Busy, ttl: nat)

  /** The outcome of the chain. `allowed` is query->flags.allowed afterwards. */
  datatype Decision = Decision(block: bool, status: Status, allowed: bool, dbOkay: bool)

  // check_domain_blocked()
  function CheckDomain(v: View, busy: Busy, allowed: bool): (d: Decision)
  {
    if allowed then Decision(false, Unknown, true, true)
    else if v.deny == Found then Decision(true, Denylist, false, true)
    else if v.antigravity == Found then Decision(false, Unknown, true, true)
    else if v.gravity == Found then Decision(true, Gravity, false, true)
    else if v.deny == Unavailable || v.antigravity == Unavailable || v.gravity == Unavailable then
      if busy == BusyAllow then Decision(false, Unknown, false, false)
      else Decision(true, DbBusy, false, false)
    else if v.denyRegex then Decision(true, Regex, false, true)
    else Decision(false, Unknown, false, true)
  }

  const ESNI := "_esni."

  predicate IsEsni(domain: string) {
    |domain| > |ESNI| && domain[..|ESNI|] == ESNI
  }

  /** The uncached part of Lorentz_check_blocking(). */
  function Decide(lists: Lists, cfg: Config, domain: string, client: string, t: QType, allowed: bool): (d: Decision)
  {
    if allowed then Decision(false, Unknown, true, true)
    else
      var v := lists(domain, client, t);
      var listed := v.allow == Found || v.allowRegex;
      if !listed && v.special then Decision(true, SpecialDomain, false, true)
      else
        var d := CheckDomain(v, cfg.busy, listed);
        if cfg.blockEsni && !d.allowed && !d.block && IsEsni(domain) then
          var e := CheckDomain(lists(domain[|ESNI|..], client, t), cfg.busy, false);
          Decision(e.block, e.status, e.allowed, d.dbOkay && e.dbOkay)
        else d
  }

  // ---- What the chain means ----

  predicate Available(v: View) {
    v.allow != Unavailable && v.deny != Unavailable && v.antigravity != Unavailable && v.gravity != Unavailable
  }

  predicate Allowlisted(v: View) {
    v.allow == Found || v.allowRegex
  }

  // A deny entry, a deny regex or a gravity entry, unless antigravity stands against
  // everything but the exact deny entry
  predicate Denied(v: View) {
    v.deny == Found || (v.antigravity != Found && (v.gravity == Found || v.denyRegex))
  }

  predicate Rescued(v: View) {
    v.antigravity == Found && v.deny != Found
  }

  // The parent of an _esni. name is consulted only if the name itself decides nothing
  predicate ConsultsParent(lists: Lists, cfg: Config, domain: string, client: string, t: QType) {
    var v := lists(domain, client, t);
    cfg.blockEsni && IsEsni(domain) && !Denied(v) && !Rescued(v)
  }

  predicate Allows(lists: Lists, cfg: Config, domain: string, client: string, t: QType) {
    var v := lists(domain, client, t);
    || Allowlisted(v)
    || (!v.special && Rescued(v))
    || (!v.special && ConsultsParent(lists, cfg, domain, client, t) && Rescued(lists(domain[|ESNI|..], client, t)))
  }

  predicate Blocks(lists: Lists, cfg: Config, domain: string, client: string, t: QType) {
    var v := lists(domain, client, t);
    && !Allowlisted(v)
    && (|| v.special
        || Denied(v)
        || (ConsultsParent(lists, cfg, domain, client, t) && Denied(lists(domain[|ESNI|..], client, t))))
  }

  ghost predicate ListsAvailable(lists: Lists) {
    forall d: string, c: string, t: QType :: Available(lists(d, c, t))
  }

  /** With the lists available the chain blocks exactly the denied, not allowlisted names,
      raises the allowed flag exactly for the allowed ones, and never both. */
  lemma DecideMeaning(lists: Lists, cfg: Config, domain: string, client: string, t: QType)
    requires ListsAvailable(lists)
    ensures var d := Decide(lists, cfg, domain, client, t, false);
            && (d.block <==> Blocks(lists, cfg, domain, client, t))
            && (d.allowed <==> Allows(lists, cfg, domain, client, t))
            && d.dbOkay
            && !(d.block && d.allowed)
            && (d.block ==> d.status in {SpecialDomain, Denylist, Gravity, Regex})
  {
    assert Available(lists(domain, client, t));
    if IsEsni(domain) {
      assert Available(lists(domain[|ESNI|..], client, t));
    }
  }

  // ---- Which list it was ----

  // No exact deny entry, antigravity or gravity entry settles the name
  predicate Open(v: View) {
    v.deny != Found && v.antigravity != Found && v.gravity != Found
  }

  predicate Missing(v: View) {
    v.deny == Unavailable || v.antigravity == Unavailable || v.gravity == Unavailable
  }

  /** The view gives `st` as the reason of a block: exact deny entries come before
      antigravity, that before gravity; a database that cannot be asked comes next and the
      regular expressions last. */
  predicate Reason(v: View, busy: Busy, st: Status) {
    match st
    case Denylist => v.deny == Found
    case Gravity => v.deny != Found && v.antigravity != Found && v.gravity == Found
    case DbBusy => Open(v) && Missing(v) && busy != BusyAllow
    case Regex => Open(v) && !Missing(v) && v.denyRegex
    case _ => false
  }

  predicate NoReason(v: View, busy: Busy) {
    Open(v) && (Missing(v) ==> busy == BusyAllow) && (v.denyRegex ==> Missing(v))
  }

  // The view a name is judged by in the end: its own, or that of the parent of an _esni. name
  function Judging(lists: Lists, cfg: Config, domain: string, client: string, t: QType): View {
    var v := lists(domain, client, t);
    if cfg.blockEsni && IsEsni(domain) && NoReason(v, cfg.busy) then lists(domain[|ESNI|..], client, t) else v
  }

  /** For any lists, available or not: a name is blocked with status st exactly if it is not
      allowlisted and st is the special domain status of a special domain or, for any other
      name, the reason its view gives. It is allowed exactly if it is allowlisted or rescued by
      antigravity, and the database was fine exactly if no view in use misses one without
      another list settling it. */
  lemma DecideReason(lists: Lists, cfg: Config, domain: string, client: string, t: QType, st: Status)
    ensures var d := Decide(lists, cfg, domain, client, t, false);
            var v, w := lists(domain, client, t), Judging(lists, cfg, domain, client, t);
            && (d.block && d.status == st <==>
                 !Allowlisted(v) && if v.special then st == SpecialDomain else Reason(w, cfg.busy, st))
            && (d.allowed <==> Allowlisted(v) || (!v.special && Rescued(w)))
            && (!d.block ==> d.status == Unknown)
            && (d.dbOkay <==> Allowlisted(v) || v.special || (!(Open(v) && Missing(v)) && !(Open(w) && Missing(w))))
  {
  }

  /** With the lists available: SpecialDomain, then Denylist, then Gravity, then Regex. */
  lemma BlockedStatus(lists: Lists, cfg: Config, domain: string, client: string, t: QType)
    requires ListsAvailable(lists) && Blocks(lists, cfg, domain, client, t)
    ensures var v := lists(domain, client, t);
            var w := if ConsultsParent(lists, cfg, domain, client, t) then lists(domain[|ESNI|..], client, t) else v;
            var st := Decide(lists, cfg, domain, client, t, false).status;
            && (st == SpecialDomain <==> v.special)
            && (st == Denylist <==> !v.special && w.deny == Found)
            && (st == Gravity <==> !v.special && w.deny != Found && w.gravity == Found)
            && (st == Regex <==> !v.special && w.deny != Found && w.gravity != Found)
  {
    assert Available(lists(domain, client, t));
    if IsEsni(domain) {
      assert Available(lists(domain[|ESNI|..], client, t));
    }
  }

  /** A name that is more than the prefix itself is an _esni. name, and its parent is the rest. */
  lemma EsniNames()
    ensures IsEsni("_esni.a.b") && "_esni.a.b"[|ESNI|..] == "a.b" && !IsEsni("_esni.") && !IsEsni("esni.a.b")
  {
    assert "_esni.a.b"[..6] == "_esni." && "_esni.a.b"[6..] == "a.b";
    assert "esni.a.b"[..6][0] == 'e';
  }

  // ---- CNAME chains ----

  /** The hook called for one hop after another until it blocks; the flag carries over. */
  function FoldHops(lists: Lists, cfg: Config, hops: seq<string>, client: string, t: QType, allowed: bool): (r: (bool, bool))
    decreases |hops|
  {
    if hops == [] then (false, allowed)
    else
      var d := Decide(lists, cfg, hops[0], client, t, allowed);
      if d.block then (true, d.allowed)
      else FoldHops(lists, cfg, hops[1..], client, t, d.allowed)
  }

  // Some hop is denied and neither it nor an earlier hop is allowed
  ghost predicate ChainDenied(lists: Lists, cfg: Config, hops: seq<string>, client: string, t: QType) {
    exists i :: 0 <= i < |hops| && Blocks(lists, cfg, hops[i], client, t)
                && forall j :: 0 <= j <= i ==> !Allows(lists, cfg, hops[j], client, t)
  }

  lemma {:induction false} FoldAllowed(lists: Lists, cfg: Config, hops: seq<string>, client: string, t: QType)
    ensures FoldHops(lists, cfg, hops, client, t, true) == (false, true)
  {
    if hops != [] {
      FoldAllowed(lists, cfg, hops[1..], client, t);
    }
  }

  lemma ChainDeniedCons(lists: Lists, cfg: Config, hops: seq<string>, client: string, t: QType)
    requires hops != []
    ensures ChainDenied(lists, cfg, hops, client, t) <==>
              && !Allows(lists, cfg, hops[0], client, t)
              && (Blocks(lists, cfg, hops[0], client, t) || ChainDenied(lists, cfg, hops[1..], client, t))
  {
    if ChainDenied(lists, cfg, hops, client, t) {
      var i :| 0 <= i < |hops| && Blocks(lists, cfg, hops[i], client, t)
               && forall j :: 0 <= j <= i ==> !Allows(lists, cfg, hops[j], client, t);
      assert !Allows(lists, cfg, hops[0], client, t);
      if i > 0 {
        assert hops[1..][i - 1] == hops[i];
        forall j | 0 <= j <= i - 1
          ensures !Allows(lists, cfg, hops[1..][j], client, t)
        {
          assert hops[1..][j] == hops[j + 1];
        }
      }
    }
    if !Allows(lists, cfg, hops[0], client, t) && ChainDenied(lists, cfg, hops[1..], client, t) {
      var i :| 0 <= i < |hops[1..]| && Blocks(lists, cfg, hops[1..][i], client, t)
               && forall j :: 0 <= j <= i ==> !Allows(lists, cfg, hops[1..][j], client, t);
      forall j | 0 <= j <= i + 1
        ensures !Allows(lists, cfg, hops[j], client, t)
      {
        if j > 0 {
          assert hops[j] == hops[1..][j - 1];
        }
      }
      assert hops[i + 1] == hops[1..][i];
    }
  }

  /** A CNAME chain is blocked exactly if some hop is denied and no hop up to it is allowed. */
  lemma {:induction false} ChainMeaning(lists: Lists, cfg: Config, hops: seq<string>, client: string, t: QType)
    requires ListsAvailable(lists)
    ensures FoldHops(lists, cfg, hops, client, t, false).0 <==> ChainDenied(lists, cfg, hops, client, t)
    decreases |hops|
  {
    if hops != [] {
      DecideMeaning(lists, cfg, hops[0], client, t);
      ChainDeniedCons(lists, cfg, hops, client, t);
      if Allows(lists, cfg, hops[0], client, t) {
        FoldAllowed(lists, cfg, hops[1..], client, t);
      } else {
        ChainMeaning(lists, cfg, hops[1..], client, t);
      }
    }
  }

  // ---- The memorised verdict of a DNS cache record ----

  const SHM_TIME_EPOCH := 1767225600

  // ABS_TO_SHM_TIME: stored in 32 bits
  function ShmTime(t: int): nat {
    (t - SHM_TIME_EPOCH) % 0x1_0000_0000
  }

  /** blocking_status, expires and flags.allowed of DNSCacheData. */
  datatype Verdict = Verdict(blocking: Status, expires: nat, allowed: bool)

  const NoVerdict := Verdict(Unknown, 0, false)

  // An expired record, or any record while caching is off, is forgotten
  function Current(v: Verdict, at: real, ttl: nat): Verdict {
    if (v.expires > 0 && ShmTime(at.Floor) > v.expires) || ttl == 0 then NoVerdict else v
  }

  predicate Intermittent(s: Status) {
    s == Unknown || s == DbBusy || s == InProgress || s == Retried || s == RetriedDnssec
  }

  // The part of query_set_status() that memorises
  function Memorised(v: Verdict, s: Status, at: real, ttl: nat): Verdict {
    if Intermittent(s) || v.blocking == s then v
    else
      Verdict(s,
              if ttl > 0 && v.expires == 0 && IsExternal(s) then ShmTime(at.Floor + ttl) else v.expires,
              v.allowed)
  }

  predicate IsListed(s: Status) {
    s == Denylist || s == DenylistCname || s == Gravity || s == GravityCname || s == Regex || s == RegexCname
  }

  predicate IsCname(s: Status) {
    s == DenylistCname || s == GravityCname || s == RegexCname
  }

  // The status a block found at a CNAME target turns into
  function CnameOf(s: Status): Status {
    if s == Gravity then GravityCname
    else if s == Regex then RegexCname
    else if s == Denylist then DenylistCname
    else s
  }

  /** A memorised verdict agrees with the chain: a list status is the chain's own, an
      unblocked one means that the chain does not block, and the remembered allowed flag
      is the one the chain raises. */
  ghost predicate Agrees(v: Verdict, d: Decision) {
    match v.blocking
    case Unknown => true
    case Denylist | Gravity | Regex | SpecialDomain => d.block && d.status == v.blocking
    case Forwarded | Cache | CacheStale => !d.block && v.allowed == d.allowed
    case ExternalIp | ExternalNull | ExternalNxra | ExternalEde15 => !d.block && v.allowed == d.allowed
    case _ => false
  }
}
