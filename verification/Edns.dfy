// The EDNS(0) record of a query: the header and option walk of
// Lorentz_parse_pseudoheaders() and getEDNS() (src/edns0.c:46-440), against the option
// list of section 6.1.2 of RFC 6891.
module Edns {
  import opened Records

  const EDE_UNSET := -1
  const ECS := 8
  const COOKIE := 10
  const EDE := 15
  const MAC_BYTE := 65001
  const MAC_TEXT := 65073
  const CPE_ID := 65074
  const HEADER := 11
  const UINT16_MAX := 65535

  /** ednsData. `client` is the printed address. */
  datatype Data = Data(valid: bool, clientSet: bool, client: string, macSet: bool, macByte: seq<byte>, macText: seq<byte>, ede: int)

  // The configuration switch and the library functions the walk calls: inet_ntop(),
  // print_mac(), and the sscanf() of a MAC address, which may fill in some bytes and fail
  datatype Env = Env(
    ecs: bool,
    address: (int, seq<byte>) -> string,
    printMac: seq<byte> -> seq<byte>,
    scanMac: (seq<byte>, seq<byte>) -> (seq<byte>, bool))

  datatype Opt = Opt(code: int, data: seq<byte>)

  function Short(b: seq<byte>, i: nat): (n: nat)
    requires i + 2 <= |b|
    ensures n <= UINT16_MAX
  {
    b[i] as int * 256 + b[i + 1] as int
  }

  function Fresh(): Data {
    Data(true, false, "", false, [0, 0, 0, 0, 0, 0], [], EDE_UNSET)
  }

  // ---- The reference: a list of options, folded ----

  /** The complete options of an RDATA; a tail that is no complete option is dropped. */
  function Options(rdata: seq<byte>): seq<Opt>
    decreases |rdata|
  {
    if |rdata| < 4 || 4 + Short(rdata, 2) > |rdata| then []
    else
      var n := Short(rdata, 2);
      [Opt(Short(rdata, 0), rdata[4..4 + n])] + Options(rdata[4 + n..])
  }

  predicate Encodable(o: Opt) {
    0 <= o.code <= UINT16_MAX && |o.data| <= UINT16_MAX
  }

  function EncodeOne(o: Opt): seq<byte>
    requires Encodable(o)
  {
    [o.code / 256, o.code % 256, |o.data| / 256, |o.data| % 256] + o.data
  }

  function Encode(os: seq<Opt>): seq<byte>
    requires forall i :: 0 <= i < |os| ==> Encodable(os[i])
  {
    if os == [] then [] else EncodeOne(os[0]) + Encode(os[1..])
  }

  predicate Truncated(tail: seq<byte>) {
    |tail| < 4 || 4 + Short(tail, 2) > |tail|
  }

  /** Reading back what was encoded, with any truncated tail behind it. */
  lemma {:induction false} OptionsOfEncode(os: seq<Opt>, tail: seq<byte>)
    requires forall i :: 0 <= i < |os| ==> Encodable(os[i])
    requires Truncated(tail)
    ensures Options(Encode(os) + tail) == os
    decreases |os|
  {
    if os == [] {
      assert Encode(os) + tail == tail;
    } else {
      EncodeHead(os, tail);
      hide *;
      OptionsOfEncode(os[1..], tail);
      FirstOption(os[0], Encode(os[1..]) + tail);
    }
  }

  lemma EncodeHead(os: seq<Opt>, tail: seq<byte>)
    requires os != [] && forall i :: 0 <= i < |os| ==> Encodable(os[i])
    ensures Encode(os) + tail == EncodeOne(os[0]) + (Encode(os[1..]) + tail)
    ensures [os[0]] + os[1..] == os
  {
    hide *;
    EncodeFirst(os);
    Regrouped(EncodeOne(os[0]), Encode(os[1..]), tail);
  }

  lemma EncodeFirst(os: seq<Opt>)
    requires os != [] && forall i :: 0 <= i < |os| ==> Encodable(os[i])
    ensures Encode(os) == EncodeOne(os[0]) + Encode(os[1..])
  {
    hide EncodeOne, Encodable;
  }

  lemma Regrouped(a: seq<byte>, b: seq<byte>, c: seq<byte>)
    ensures (a + b) + c == a + (b + c)
  {
  }

  lemma FirstOption(o: Opt, rest: seq<byte>)
    requires Encodable(o)
    ensures Options(EncodeOne(o) + rest) == [o] + Options(rest)
  {
    var r := EncodeOne(o) + rest;
    assert Short(r, 0) == o.code && Short(r, 2) == |o.data|;
    assert r[4..4 + |o.data|] == o.data && r[4 + |o.data|..] == rest;
  }

  // ---- What one option does ----

  function Padded(b: seq<byte>, n: nat): seq<byte>
    requires |b| <= n
  {
    b + seq(n - |b|, i => 0)
  }

  // The address of a client subnet option that names one host, if it does
  function Host(data: seq<byte>): Option<(int, seq<byte>)>
    requires |data| >= 4
  {
    var family, mask, addr := Short(data, 0), data[2], data[4..];
    if family == 1 && |addr| <= 4 && mask == 32 then Some((1, Padded(addr, 4)))
    else if family == 2 && |addr| <= 16 && mask == 128 then Some((2, Padded(addr, 16)))
    else None
  }

  function Loopback(family: int, addr: seq<byte>): bool {
    if family == 1 then |addr| == 4 && addr[0] == 127
    else addr == Padded([], 15) + [1]
  }

  function Subnet(e: Data, data: seq<byte>, env: Env): Data
    requires |data| >= 4
  {
    match Host(data)
    case None => e
    case Some((family, addr)) =>
      e.(client := env.address(family, addr), clientSet := e.clientSet || !Loopback(family, addr))
  }

  function Consume(e: Data, o: Opt, env: Env): Data {
    if o.code == ECS && env.ecs && |o.data| >= 4 then Subnet(e, o.data, env)
    else if o.code == MAC_BYTE && |o.data| == 6 then
      e.(macByte := o.data, macText := env.printMac(o.data), macSet := true)
    else if o.code == MAC_TEXT && |o.data| == 17 then
      var scanned := env.scanMac(o.data, e.macByte);
      e.(macText := o.data, macByte := scanned.0, macSet := e.macSet || scanned.1)
    else if o.code == EDE && |o.data| >= 2 then e.(ede := Short(o.data, 0))
    else e
  }

  function Fold(e: Data, os: seq<Opt>, env: Env): Data
    decreases |os|
  {
    if os == [] then e else Fold(Consume(e, os[0], env), os[1..], env)
  }

  // ---- What the fold means ----

  predicate IsEde(o: Opt) {
    o.code == EDE && |o.data| >= 2
  }

  function LastEde(os: seq<Opt>): Option<int> {
    if os == [] then None
    else if IsEde(os[|os| - 1]) then Some(Short(os[|os| - 1].data, 0))
    else LastEde(os[..|os| - 1])
  }

  lemma {:induction false} FoldSnoc(e: Data, os: seq<Opt>, o: Opt, env: Env)
    ensures Fold(e, os + [o], env) == Consume(Fold(e, os, env), o, env)
    decreases |os|
  {
    if os == [] {
      assert [o][1..] == [];
    } else {
      FoldSnoc(Consume(e, os[0], env), os[1..], o, env);
      assert (os + [o])[1..] == os[1..] + [o];
    }
  }

  /** The last extended error wins; without one the value is unset. */
  lemma {:induction false} LastEdeWins(os: seq<Opt>, env: Env)
    ensures Fold(Fresh(), os, env).ede == match LastEde(os) { case Some(c) => c case None => EDE_UNSET }
    decreases |os|
  {
    if os != [] {
      var front, o := os[..|os| - 1], os[|os| - 1];
      LastEdeWins(front, env);
      FoldSnoc(Fresh(), front, o, env);
      assert front + [o] == os;
    }
  }

  // A client subnet option that names one host
  predicate IsHost(o: Opt, env: Env) {
    o.code == ECS && env.ecs && |o.data| >= 4 && Host(o.data).Some?
  }

  predicate IsUsable(o: Opt, env: Env) {
    IsHost(o, env) && !Loopback(Host(o.data).value.0, Host(o.data).value.1)
  }

  // The last option that names a host
  function LastHost(os: seq<Opt>, env: Env): (r: Option<Opt>)
    ensures r.Some? ==> IsHost(r.value, env)
  {
    if os == [] then None
    else if IsHost(os[|os| - 1], env) then Some(os[|os| - 1])
    else LastHost(os[..|os| - 1], env)
  }

  function AddressOf(o: Option<Opt>, env: Env): string
    requires o.Some? ==> IsHost(o.value, env)
  {
    if o.None? then "" else env.address(Host(o.value.data).value.0, Host(o.value.data).value.1)
  }

  /** The client is marked as known if and only if some option names a host that is not a
      loopback address; the address kept is that of the last option that names a host,
      loopback or not. */
  lemma {:induction false} ClientOfFold(os: seq<Opt>, env: Env)
    ensures Fold(Fresh(), os, env).clientSet <==> exists i :: 0 <= i < |os| && IsUsable(os[i], env)
    ensures Fold(Fresh(), os, env).client == AddressOf(LastHost(os, env), env)
    decreases |os|
  {
    if os != [] {
      var front, o := os[..|os| - 1], os[|os| - 1];
      hide Fold, Host, Loopback;
      ClientOfFold(front, env);
      FoldSnoc(Fresh(), front, o, env);
      assert front + [o] == os;
      assert forall i :: 0 <= i < |front| ==> front[i] == os[i];
      if i :| 0 <= i < |os| && IsUsable(os[i], env) {
        if i < |front| {
          assert IsUsable(front[i], env);
        }
      }
      if IsUsable(o, env) {
        assert IsUsable(os[|os| - 1], env);
      }
    }
  }

  lemma {:induction false} LastHostIn(os: seq<Opt>, env: Env)
    ensures LastHost(os, env).Some? ==> LastHost(os, env).value in os
    decreases |os|
  {
    if os != [] {
      LastHostIn(os[..|os| - 1], env);
    }
  }

  /** The flag is set and the address kept is one that may be used, exactly if there is an
      option that names a host and the last such option is not loopback. The flag alone says
      so exactly if it is not the case that the last one is loopback and an earlier one is
      not. */
  lemma FlagFitsAddress(os: seq<Opt>, env: Env)
    ensures var e, last := Fold(Fresh(), os, env), LastHost(os, env);
            var usable := last.Some? && IsUsable(last.value, env);
            && (e.clientSet && usable <==> usable)
            && ((e.clientSet <==> usable) <==> !(last.Some? && !IsUsable(last.value, env) && exists o :: o in os && IsUsable(o, env)))
  {
    ClientOfFold(os, env);
    LastHostIn(os, env);
    hide Fold, IsUsable;
    forall o | o in os && IsUsable(o, env)
      ensures LastHost(os, env).Some?
    {
      HostsSeen(os, o, env);
    }
    assert (exists i :: 0 <= i < |os| && IsUsable(os[i], env)) <==> (exists o :: o in os && IsUsable(o, env));
  }

  lemma {:induction false} HostsSeen(os: seq<Opt>, o: Opt, env: Env)
    requires o in os && IsUsable(o, env)
    ensures LastHost(os, env).Some?
    decreases |os|
  {
    if !IsHost(os[|os| - 1], env) {
      assert os == os[..|os| - 1] + [os[|os| - 1]];
      HostsSeen(os[..|os| - 1], o, env);
    }
  }

  /** Two options, 192.0.2.1/32 and then 127.0.0.1/32: the address kept is the loopback one,
      and the flag says that it may be used. */
  lemma LoopbackMarkedUsable(env: Env)
    requires env.ecs
    ensures var os := [Opt(ECS, [0, 1, 32, 0, 192, 0, 2, 1]), Opt(ECS, [0, 1, 32, 0, 127, 0, 0, 1])];
            var e := Fold(Fresh(), os, env);
            e.clientSet && e.client == env.address(1, [127, 0, 0, 1]) && Loopback(1, [127, 0, 0, 1])
  {
    var a, b := Opt(ECS, [0, 1, 32, 0, 192, 0, 2, 1]), Opt(ECS, [0, 1, 32, 0, 127, 0, 0, 1]);
    assert a.data[4..] == [192, 0, 2, 1] && b.data[4..] == [127, 0, 0, 1];
    assert Padded(a.data[4..], 4) == [192, 0, 2, 1] && Padded(b.data[4..], 4) == [127, 0, 0, 1];
    assert Host(a.data) == Some((1, [192, 0, 2, 1])) && Host(b.data) == Some((1, [127, 0, 0, 1]));
    assert [a, b] == [] + [a] + [b];
    FoldSnoc(Fresh(), [], a, env);
    FoldSnoc(Fresh(), [] + [a], b, env);
  }

  // ---- The walk ----

  // The bytes of the options of pseudoheader ph
  function Rdata(ph: seq<byte>): seq<byte>
    requires |ph| >= HEADER && HEADER + Short(ph, 9) <= |ph|
  {
    ph[HEADER..HEADER + Short(ph, 9)]
  }

  // The fixed part is that of an OPT record of version 0
  predicate Accepted(ph: seq<byte>)
    requires |ph| >= HEADER
  {
    ph[0] == 0 && Short(ph, 1) == 41 && ph[6] == 0
  }

  // A client subnet option at position p, which it leaves n bytes later
  method SubnetAt(ph: seq<byte>, p: nat, n: nat, e: Data, env: Env) returns (r: Data, q: nat)
    requires 4 <= n && p + n <= |ph|
    ensures r == Subnet(e, ph[p..p + n], env) && q == p + n
  {
    ghost var data := ph[p..p + n];
    r, q := e, p;
    var family := Short(ph, q);
    q := q + 2;
    var mask := ph[q];
    q := q + 2;
    var length := n - 4;
    var addr: seq<byte>;
    assert data[4..] == ph[q..q + length];
    if family == 1 && length <= 4 {
      addr := Padded(ph[q..q + length], 4);
    } else if family == 2 && length <= 16 {
      addr := Padded(ph[q..q + length], 16);
    } else {
      q := q + length;
      return;
    }
    q := q + length;
    if !(family == 1 && mask == 32) && !(family == 2 && mask == 128) {
      return;
    }
    r := r.(client := env.address(family, addr));
    if !Loopback(family, addr) {
      r := r.(clientSet := true);
    }
  }

  // One option of n bytes at position p: every branch moves on by exactly n
  method OptionAt(ph: seq<byte>, p: nat, code: int, n: nat, e: Data, env: Env) returns (r: Data, q: nat)
    requires p + n <= |ph|
    ensures r == Consume(e, Opt(code, ph[p..p + n]), env) && q == p + n
  {
    r, q := e, p;
    if code == ECS && env.ecs && n >= 4 {
      r, q := SubnetAt(ph, p, n, e, env);
    } else if code == COOKIE && n == 8 {
      q := q + 8;
    } else if code == COOKIE && 16 <= n <= 40 {
      q := q + n;
    } else if code == MAC_BYTE && n == 6 {
      r := r.(macByte := ph[p..p + 6]);
      r := r.(macText := env.printMac(r.macByte));
      r := r.(macSet := true);
      q := q + 6;
    } else if code == MAC_TEXT && n == 17 {
      r := r.(macText := ph[p..p + 17]);
      var scanned := env.scanMac(r.macText, r.macByte);
      r := r.(macByte := scanned.0);
      if scanned.1 {
        r := r.(macSet := true);
      }
      q := q + 17;
    } else if code == MAC_TEXT && n == 8 {
      q := q + 8;
    } else if code == CPE_ID && n < 256 {
      q := q + n;
    } else if code == EDE && n >= 2 {
      r := r.(ede := ph[p] as int * 256 + ph[p + 1] as int);
      q := q + n;
    } else {
      q := q + n;
    }
  }

  lemma FoldCons(e: Data, o: Opt, os: seq<Opt>, env: Env)
    ensures Fold(e, [o] + os, env) == Fold(Consume(e, o, env), os, env)
  {
    assert ([o] + os)[1..] == os;
  }

  lemma Slice(ph: seq<byte>, p: nat, end: nat, a: nat, b: nat)
    requires p <= end <= |ph| && a <= b <= end - p
    ensures ph[p..end][a..b] == ph[p + a..p + b]
  {
    var l, r := ph[p..end][a..b], ph[p + a..p + b];
    forall k | 0 <= k < b - a
      ensures l[k] == r[k]
    {
      assert l[k] == ph[p..end][a + k] == ph[p + (a + k)];
    }
  }

  // The complete options from position p on
  ghost function Left(ph: seq<byte>, p: nat, end: nat): seq<Opt>
    requires p <= end <= |ph|
  {
    Options(ph[p..end])
  }

  predicate Next(ph: seq<byte>, p: nat, end: nat)
    requires p <= end <= |ph|
  {
    end - p >= 4 && p + 4 + Short(ph, p + 2) <= end
  }

  lemma LeftNext(ph: seq<byte>, p: nat, end: nat)
    requires p <= end <= |ph| && Next(ph, p, end)
    ensures var n := Short(ph, p + 2);
            Left(ph, p, end) == [Opt(Short(ph, p), ph[p + 4..p + 4 + n])] + Left(ph, p + 4 + n, end)
  {
    var rest, n := ph[p..end], Short(ph, p + 2);
    assert Short(rest, 0) == Short(ph, p) && Short(rest, 2) == n;
    hide Short;
    Slice(ph, p, end, 4, 4 + n);
    Slice(ph, p, end, 4 + n, end - p);
    assert rest[4 + n..] == rest[4 + n..end - p];
  }

  lemma LeftNone(ph: seq<byte>, p: nat, end: nat)
    requires p <= end <= |ph| && !Next(ph, p, end)
    ensures Left(ph, p, end) == []
  {
    var rest := ph[p..end];
    if end - p >= 4 {
      assert Short(rest, 2) == Short(ph, p + 2);
    }
  }

  lemma LeftAll(ph: seq<byte>)
    requires |ph| >= HEADER && HEADER + Short(ph, 9) <= |ph|
    ensures Left(ph, HEADER, HEADER + Short(ph, 9)) == Options(Rdata(ph))
  {
  }

  // The walk is at position p: a complete option is next, or there is none any more
  lemma WalkStep(ph: seq<byte>, p: nat, end: nat, e: Data, env: Env)
    requires p <= end <= |ph|
    ensures if end - p >= 4 && p + 4 + Short(ph, p + 2) <= end then
              var n := Short(ph, p + 2);
              Fold(e, Left(ph, p, end), env) ==
                Fold(Consume(e, Opt(Short(ph, p), ph[p + 4..p + 4 + n]), env), Left(ph, p + 4 + n, end), env)
            else Fold(e, Left(ph, p, end), env) == e
  {
    if Next(ph, p, end) {
      var n := Short(ph, p + 2);
      hide *;
      LeftNext(ph, p, end);
      FoldCons(e, Opt(Short(ph, p), ph[p + 4..p + 4 + n]), Left(ph, p + 4 + n, end), env);
    } else {
      hide Left;
      LeftNone(ph, p, end);
    }
  }

  /** The option loop: for every RDATA shorter than 65535 bytes, the record is the fold
      over its complete options. An RDATA of exactly 65535 bytes is not walked at all. */
  method Walk(ph: seq<byte>, env: Env) returns (e: Data)
    requires |ph| >= HEADER && HEADER + Short(ph, 9) <= |ph|
    ensures e == if Short(ph, 9) < UINT16_MAX then Fold(Fresh(), Options(Rdata(ph)), env) else Fresh()
  {
    LeftAll(ph);
    e := WalkOptions(ph, HEADER, Short(ph, 9), env);
  }

  method WalkOptions(ph: seq<byte>, start: nat, rdlen: nat, env: Env) returns (e: Data)
    requires start + rdlen <= |ph|
    ensures e == if rdlen < UINT16_MAX then Fold(Fresh(), Left(ph, start, start + rdlen), env) else Fresh()
  {
    hide *;
    e := Fresh();
    ghost var end := start + rdlen;
    var p := start;
    while p - start + 4 <= rdlen && rdlen < UINT16_MAX
      invariant start <= p <= end
      invariant rdlen < UINT16_MAX ==> Fold(e, Left(ph, p, end), env) == Fold(Fresh(), Left(ph, start, end), env)
      invariant rdlen >= UINT16_MAX ==> e == Fresh()
      decreases end - p
    {
      WalkStep(ph, p, end, e, env);
      var code, n := Short(ph, p), Short(ph, p + 2);
      if p + 4 - start + n > rdlen {
        return;
      }
      e, p := OptionAt(ph, p + 4, code, n, e, env);
    }
    WalkStep(ph, p, end, e, env);
  }

  // ---- The record and its one reader ----

  class Record {
    var edns: Data

    constructor ()
      ensures !edns.valid
    {
      edns := Fresh().(valid := false);
    }

    /** Lorentz_parse_pseudoheaders(): without a pseudoheader, or with one that is not an
        OPT record of version 0, the record stays as it is. */
    method Parse(pheader: Option<seq<byte>>, env: Env)
      requires pheader.Some? ==> |pheader.value| >= HEADER && HEADER + Short(pheader.value, 9) <= |pheader.value|
      modifies this
      ensures edns == if pheader.None? || !Accepted(pheader.value) then old(edns) else Parsed(pheader.value, env)
    {
      if pheader.None? {
        return;
      }
      var ph := pheader.value;
      if ph[0] != 0 || Short(ph, 1) != 41 {
        return;
      }
      if ph[6] != 0 {
        return;
      }
      edns := Walk(ph, env);
    }

    /** getEDNS(): a record is handed out once */
    method Get() returns (r: Option<Data>)
      modifies this
      ensures r.Some? <==> old(edns).valid
      ensures r.Some? ==> r.value == old(edns).(valid := false)
      ensures edns == old(edns).(valid := false)
    {
      if edns.valid {
        edns := edns.(valid := false);
        return Some(edns);
      }
      return None;
    }
  }

  ghost function Parsed(ph: seq<byte>, env: Env): Data
    requires |ph| >= HEADER && HEADER + Short(ph, 9) <= |ph|
  {
    if Short(ph, 9) < UINT16_MAX then Fold(Fresh(), Options(Rdata(ph)), env) else Fresh()
  }

  // ---- The whole record ----

  function HeaderBytes(rdlen: nat): seq<byte>
    requires rdlen <= UINT16_MAX
  {
    [0, 0, 41, 4, 208, 0, 0, 0, 0, rdlen / 256, rdlen % 256]
  }

  /** For every option list and every truncated tail that fit below 65535 bytes, the record
      is the fold over the list. */
  lemma ParsedIsFold(os: seq<Opt>, tail: seq<byte>, env: Env)
    requires forall i :: 0 <= i < |os| ==> Encodable(os[i])
    requires Truncated(tail) && |Encode(os) + tail| < UINT16_MAX
    ensures var rdata := Encode(os) + tail;
            var ph := HeaderBytes(|rdata|) + rdata;
            Short(ph, 9) == |rdata| && Accepted(ph) && Parsed(ph, env) == Fold(Fresh(), os, env)
  {
    var rdata := Encode(os) + tail;
    var ph := HeaderBytes(|rdata|) + rdata;
    assert ph[9] == |rdata| / 256 && ph[10] == |rdata| % 256;
    assert ph[HEADER..HEADER + |rdata|] == rdata;
    OptionsOfEncode(os, tail);
  }

  // 65535 bytes of options: an extended error, then zeros
  function Oversized(): (os: seq<Opt>)
    ensures |os| == 2 && Encodable(os[0]) && Encodable(os[1])
  {
    [Opt(EDE, [0, 15]), Opt(0, seq(65525, i => 0))]
  }

  /** The walk is skipped for an RDATA of 65535 bytes, the largest there is: an extended
      error in it is lost. */
  lemma OversizedIsSkipped(env: Env)
    ensures var rdata := Encode(Oversized());
            var ph := HeaderBytes(UINT16_MAX) + rdata;
            && |rdata| == UINT16_MAX && Short(ph, 9) == UINT16_MAX && Accepted(ph)
            && Parsed(ph, env).ede == EDE_UNSET && Fold(Fresh(), Options(Rdata(ph)), env).ede == 15
  {
    var os := Oversized();
    var rdata := Encode(os);
    var ph := HeaderBytes(UINT16_MAX) + rdata;
    OversizedLength();
    assert rdata + [] == rdata;
    assert Truncated([]);
    assert LastEde(os) == Some(15) by {
      assert os[..1] == [os[0]] && LastEde(os[..1]) == Some(15);
    }
    assert ph[9] == 255 && ph[10] == 255 && ph[0] == 0 && ph[1] == 0 && ph[2] == 41 && ph[6] == 0;
    hide Encode, Oversized, LastEde, Options, Fold, HeaderBytes, Truncated;
    assert ph[HEADER..HEADER + UINT16_MAX] == rdata;
    OptionsOfEncode(os, []);
    LastEdeWins(os, env);
  }

  lemma OversizedLength()
    ensures |Encode(Oversized())| == UINT16_MAX
  {
    var os := Oversized();
    assert os[1..] == [os[1]];
    assert os[1..][1..] == [];
    assert Encode(os[1..]) == EncodeOne(os[1]) + Encode(os[1..][1..]);
  }

  // ---- Literal records ----

  // A pseudoheader with one option of at most 200 bytes
  function OneRecord(hi: byte, lo: byte, data: seq<byte>): seq<byte>
    requires |data| <= 200
  {
    [0, 0, 41, 16, 0, 0, 0, 0, 0, 0, 4 + |data|] + ([hi, lo, 0, |data|] + data)
  }

  lemma OneOption(hi: byte, lo: byte, data: seq<byte>, env: Env)
    requires |data| <= 200
    ensures var ph := OneRecord(hi, lo, data);
            && Accepted(ph) && Short(ph, 9) == 4 + |data| && |ph| == HEADER + Short(ph, 9)
            && Parsed(ph, env) == Consume(Fresh(), Opt(hi * 256 + lo, data), env)
  {
    var ph := OneRecord(hi, lo, data);
    var rdata := [hi, lo, 0, |data|] + data;
    assert Rdata(ph) == rdata;
    assert rdata[4..4 + |data|] == data && rdata[4 + |data|..] == [];
    assert Options(rdata) == [Opt(hi * 256 + lo, data)] + Options([]);
    var o := Opt(hi * 256 + lo, data);
    assert [o][1..] == [];
    hide Consume;
    assert Fold(Fresh(), [o], env) == Fold(Consume(Fresh(), o, env), [], env);
  }

  /** A client subnet option, number 8: family, prefix length and scope ahead of the address. */
  lemma SubnetExample(env: Env)
    requires env.ecs
    ensures var e := Parsed(OneRecord(0, 8, [0, 1, 32, 0, 192, 0, 2, 1]), env);
            e.clientSet && e.client == env.address(1, [192, 0, 2, 1])
    ensures Parsed(OneRecord(0, 8, [0, 1, 24, 0, 192, 0, 2]), env) == Fresh()
  {
    hide Parsed, OneRecord;
    OneOption(0, 8, [0, 1, 32, 0, 192, 0, 2, 1], env);
    OneOption(0, 8, [0, 1, 24, 0, 192, 0, 2], env);
    var data: seq<byte> := [0, 1, 32, 0, 192, 0, 2, 1];
    assert data[4..] == [192, 0, 2, 1] && Padded(data[4..], 4) == [192, 0, 2, 1];
    assert Host(data) == Some((1, [192, 0, 2, 1]));
  }

  /** An extended error, number 15, and MAC addresses: 65001 in six bytes, 65073 in seventeen
      characters. */
  lemma OptionExamples(mac: seq<byte>, text: seq<byte>, env: Env)
    requires |mac| == 6 && |text| == 17
    ensures Parsed(OneRecord(0, 15, [0, 18, 65]), env).ede == 18
    ensures var e := Parsed(OneRecord(253, 233, mac), env); e.macSet && e.macByte == mac && e.macText == env.printMac(mac)
    ensures Parsed(OneRecord(254, 49, text), env).macText == text
    ensures Parsed(OneRecord(0, 10, text), env) == Data(true, false, "", false, [0, 0, 0, 0, 0, 0], [], -1)
  {
    OneOption(0, 10, text, env);
    hide Parsed, OneRecord;
    OneOption(0, 15, [0, 18, 65], env);
    OneOption(253, 233, mac, env);
    OneOption(254, 49, text, env);
  }

  /** An IPv6 client is one with a prefix of 128 bits, and ::1 is its loopback address. */
  lemma SubnetExample6(env: Env)
    requires env.ecs
    ensures var addr: seq<byte> := [32, 1, 13, 184, 0, 0, 0, 0, 0, 0, 0, 0, 0, 0, 0, 7];
            var e := Parsed(OneRecord(0, 8, [0, 2, 128, 0] + addr), env);
            e.clientSet && e.client == env.address(2, addr)
    ensures var addr: seq<byte> := [0, 0, 0, 0, 0, 0, 0, 0, 0, 0, 0, 0, 0, 0, 0, 1];
            var e := Parsed(OneRecord(0, 8, [0, 2, 128, 0] + addr), env);
            !e.clientSet && e.client == env.address(2, addr)
    ensures var addr: seq<byte> := [32, 1, 13, 184, 0, 0, 0, 0];
            Parsed(OneRecord(0, 8, [0, 2, 64, 0] + addr), env) == Fresh()
  {
    hide Parsed, OneRecord;
    var a: seq<byte> := [32, 1, 13, 184, 0, 0, 0, 0, 0, 0, 0, 0, 0, 0, 0, 7];
    var b: seq<byte> := [0, 0, 0, 0, 0, 0, 0, 0, 0, 0, 0, 0, 0, 0, 0, 1];
    var c: seq<byte> := [32, 1, 13, 184, 0, 0, 0, 0];
    Host6(a);
    Host6(b);
    assert Padded([], 15) + [1] == b;
    assert a[15] != (Padded([], 15) + [1])[15];
    OneOption(0, 8, [0, 2, 128, 0] + a, env);
    OneOption(0, 8, [0, 2, 128, 0] + b, env);
    OneOption(0, 8, [0, 2, 64, 0] + c, env);
    assert Host([0, 2, 64, 0] + c) == None;
    hide Host;
  }

  lemma Host6(addr: seq<byte>)
    requires |addr| == 16
    ensures Host([0, 2, 128, 0] + addr) == Some((2, addr))
  {
    var data := [0, 2, 128, 0] + addr;
    assert data[4..] == addr;
    assert Padded(addr, 16) == addr;
  }

  /** Only an OPT record, type 41, of the root domain and of version 0 is looked at. */
  lemma Refused(ph: seq<byte>)
    requires |ph| >= HEADER
    ensures Accepted(ph) <==> ph[0] == 0 && ph[1] == 0 && ph[2] == 41 && ph[6] == 0
  {
  }

  // ---- MAC addresses ----

  predicate IsMac(o: Opt) {
    (o.code == 65001 && |o.data| == 6) || (o.code == 65073 && |o.data| == 17)
  }

  function LastMac(os: seq<Opt>): Option<Opt> {
    if os == [] then None
    else if IsMac(os[|os| - 1]) then Some(os[|os| - 1])
    else LastMac(os[..|os| - 1])
  }

  /** Over any list the last MAC address is kept. In bytes it is taken as it is and known; as text it
      is kept as text, and known if it or an address before it could be read. */
  lemma {:induction false} MacOfFold(os: seq<Opt>, env: Env)
    ensures var e := Fold(Fresh(), os, env);
            match LastMac(os)
            case None => !e.macSet && e.macText == [] && e.macByte == [0, 0, 0, 0, 0, 0]
            case Some(o) =>
              && (o.code == 65001 ==> e.macSet && e.macByte == o.data && e.macText == env.printMac(o.data))
              && (o.code == 65073 ==> e.macText == o.data)
    decreases |os|
  {
    if os != [] {
      var front, o := os[..|os| - 1], os[|os| - 1];
      hide Fold, Host, Loopback;
      MacOfFold(front, env);
      FoldSnoc(Fresh(), front, o, env);
      assert front + [o] == os;
    } else {
      assert Fold(Fresh(), os, env) == Fresh();
    }
  }
}
