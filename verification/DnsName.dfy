// Domain names on the wire: nameToDNS() and nameFromDNS() (src/resolve.c:779-930), against
// the reading of names that section 4.1.4 of RFC 1035 gives.
module DnsName {
  import opened Records


  const DOT: byte := 46
  const COMPRESSED: byte := 0xC0
  const MAXNAMELEN := 256
  const MAXRAW := 254

  type Label = seq<byte>

  // ---- The reference ----

  /** The labels of the name at position r, following at most `jumps` compression
      pointers. Offsets of 256 and more are not followed, as in the program. */
  function Parse(buf: seq<byte>, r: nat, jumps: nat): Option<seq<Label>>
    decreases jumps, |buf| - r
  {
    if r >= |buf| then None
    else if buf[r] == 0 then Some([])
    else if buf[r] >= COMPRESSED then
      if jumps == 0 || r + 1 >= |buf| || Offset(buf, r) >= MAXNAMELEN then None
      else Parse(buf, Offset(buf, r), jumps - 1)
    else if buf[r] >= 64 || r + 1 + buf[r] > |buf| then None
    else
      match Parse(buf, r + 1 + buf[r], jumps)
      case None => None
      case Some(rest) => Some([buf[r + 1..r + 1 + buf[r]]] + rest)
  }

  function Offset(buf: seq<byte>, r: nat): nat
    requires r + 1 < |buf| && buf[r] >= COMPRESSED
  {
    (buf[r] - COMPRESSED) * 256 + buf[r + 1]
  }

  ghost predicate At(buf: seq<byte>, r: nat, w: seq<byte>) {
    r + |w| <= |buf| && buf[r..r + |w|] == w
  }

  lemma AtSplit(buf: seq<byte>, r: nat, a: seq<byte>, b: seq<byte>)
    requires At(buf, r, a + b)
    ensures At(buf, r, a) && At(buf, r + |a|, b)
  {
    var w := a + b;
    forall k | 0 <= k < |w|
      ensures buf[r + k] == w[k]
    {
      assert buf[r..r + |w|][k] == w[k];
    }
    forall k | 0 <= k < |a|
      ensures buf[r..r + |a|][k] == a[k]
    {
      assert w[k] == a[k];
    }
    forall k | 0 <= k < |b|
      ensures buf[r + |a|..r + |a| + |b|][k] == b[k]
    {
      assert w[|a| + k] == b[k];
    }
  }

  lemma AtFirst(buf: seq<byte>, r: nat, w: seq<byte>)
    requires At(buf, r, w) && w != []
    ensures r < |buf| && buf[r] == w[0]
  {
    assert buf[r] == buf[r..r + |w|][0];
  }

  // The bytes of the labels at position r itself, and whether a pointer ends them
  function Prefix(buf: seq<byte>, r: nat): (nat, bool)
    decreases |buf| - r
  {
    if r >= |buf| || buf[r] == 0 then (0, false)
    else if buf[r] >= COMPRESSED then (0, true)
    else
      var p := Prefix(buf, r + 1 + buf[r]);
      (1 + buf[r] + p.0, p.1)
  }

  /** The number of bytes the name takes at its position: a terminator is one byte, a
      compression pointer two. */
  function Extent(buf: seq<byte>, r: nat): nat {
    var p := Prefix(buf, r);
    p.0 + if p.1 then 2 else 1
  }

  function Join(labels: seq<Label>): seq<byte> {
    if labels == [] then []
    else if |labels| == 1 then labels[0]
    else labels[0] + [DOT] + Join(labels[1..])
  }

  function Dots(labels: seq<Label>): seq<byte> {
    if labels == [] then [] else labels[0] + [DOT] + Dots(labels[1..])
  }

  // The labels, each behind its length
  function Wire(labels: seq<Label>): seq<byte>
    requires forall i :: 0 <= i < |labels| ==> |labels[i]| < 256
  {
    if labels == [] then [] else [|labels[0]|] + labels[0] + Wire(labels[1..])
  }

  // Labels of 1 to 63 bytes that neither end a string nor look like a pointer
  ghost predicate Plain(labels: seq<Label>) {
    forall i :: 0 <= i < |labels| ==> PlainLabel(labels[i])
  }

  ghost predicate PlainLabel(l: Label) {
    1 <= |l| < 64 && forall k :: 0 <= k < |l| ==> 0 < l[k] < COMPRESSED
  }

  function Total(labels: seq<Label>): nat {
    if labels == [] then 0 else |labels[0]| + 1 + Total(labels[1..])
  }

  // ---- Copying the raw name ----

  datatype Copied = Failed | Copied(raw: seq<byte>, count: nat)

  /** The first loop of nameFromDNS(), from any of its states. */
  function Copy(buf: seq<byte>, r: nat, raw: seq<byte>, jumps: nat, count: nat): (c: Copied)
    requires |raw| <= MAXRAW && jumps <= MAXNAMELEN
    ensures c.Copied? ==> raw <= c.raw && |c.raw| <= MAXRAW
    decreases MAXRAW - |raw| + MAXNAMELEN - jumps
  {
    if r >= |buf| || buf[r] == 0 || |raw| >= MAXRAW then Copied(raw, if jumps > 0 then count + 1 else count)
    else if buf[r] >= COMPRESSED then
      if r + 1 >= |buf| || Offset(buf, r) >= MAXNAMELEN || jumps + 1 > MAXNAMELEN then Failed
      else Copy(buf, Offset(buf, r), raw, jumps + 1, count)
    else Copy(buf, r + 1, raw + [buf[r]], jumps, if jumps == 0 then count + 1 else count)
  }

  method CopyLoop(buf: seq<byte>, start: nat) returns (c: Copied)
    ensures c == Copy(buf, start, [], 0, 1)
  {
    var r: nat, jumps: nat, count: nat := start, 0, 1;
    var raw: seq<byte> := [];
    while r < |buf| && buf[r] != 0 && |raw| < MAXRAW
      invariant jumps <= MAXNAMELEN && |raw| <= MAXRAW
      invariant Copy(buf, r, raw, jumps, count) == Copy(buf, start, [], 0, 1)
      decreases MAXRAW - |raw| + MAXNAMELEN - jumps
    {
      if buf[r] >= COMPRESSED {
        if r + 1 >= |buf| {
          return Failed;
        }
        var offset := Offset(buf, r);
        if offset >= MAXNAMELEN || jumps + 1 > MAXNAMELEN {
          return Failed;
        }
        jumps := jumps + 1;
        r := offset;
      } else {
        raw := raw + [buf[r]];
        r := r + 1;
        if jumps == 0 {
          count := count + 1;
        }
      }
    }
    return Copied(raw, if jumps > 0 then count + 1 else count);
  }

  lemma {:induction false} CopyBytes(buf: seq<byte>, r: nat, n: nat, raw: seq<byte>, jumps: nat, count: nat)
    requires r + n <= |buf| && |raw| + n <= MAXRAW && jumps <= MAXNAMELEN
    requires forall k :: r <= k < r + n ==> 0 < buf[k] < COMPRESSED
    ensures Copy(buf, r, raw, jumps, count) ==
            Copy(buf, r + n, raw + buf[r..r + n], jumps, count + if jumps == 0 then n else 0)
    decreases n
  {
    if n == 0 {
      assert raw + buf[r..r] == raw;
    } else {
      CopyBytes(buf, r + 1, n - 1, raw + [buf[r]], jumps, count + if jumps == 0 then 1 else 0);
      assert raw + [buf[r]] + buf[r + 1..r + n] == raw + buf[r..r + n];
    }
  }

  /** Whatever pointers the name goes through, what is copied is the labels. */
  lemma {:induction false} CopyLabels(buf: seq<byte>, r: nat, raw: seq<byte>, jumps: nat, count: nat, labels: seq<Label>)
    requires |raw| <= MAXRAW && jumps <= MAXNAMELEN && Parse(buf, r, MAXNAMELEN - jumps) == Some(labels)
    requires Plain(labels) && |raw| + Total(labels) <= MAXRAW
    ensures var c := Copy(buf, r, raw, jumps, count); c.Copied? && c.raw == raw + Wire(labels)
    decreases MAXNAMELEN - jumps, |buf| - r
  {
    hide *;
    ParseCases(buf, r, MAXNAMELEN - jumps);
    if buf[r] == 0 {
      CopyStops(buf, r, raw, jumps, count);
    } else if buf[r] >= COMPRESSED {
      if |raw| < MAXRAW {
        CopyJump(buf, r, raw, jumps, count);
        CopyLabels(buf, Offset(buf, r), raw, jumps + 1, count, labels);
      } else {
        EmptyTotal(labels);
        CopyStops(buf, r, raw, jumps, count);
      }
    } else {
      CopyLabelStep(buf, r, raw, jumps, count);
      WireLabelStep(buf, r, raw, MAXNAMELEN - jumps);
      var rest := Parse(buf, r + 1 + buf[r], MAXNAMELEN - jumps).value;
      CopyLabels(buf, r + 1 + buf[r], More(buf, r, raw), jumps, count + if jumps == 0 then 1 + buf[r] else 0, rest);
    }
  }

  // The copy, longer by the label at r and its length
  function More(buf: seq<byte>, r: nat, raw: seq<byte>): (more: seq<byte>)
    requires r < |buf| && r + 1 + buf[r] <= |buf|
    ensures |more| == |raw| + 1 + buf[r]
  {
    raw + buf[r..r + 1 + buf[r]]
  }

  // One label of the name: copied, and the rest of the name is next
  lemma CopyLabelStep(buf: seq<byte>, r: nat, raw: seq<byte>, jumps: nat, count: nat)
    requires jumps <= MAXNAMELEN && Parse(buf, r, MAXNAMELEN - jumps).Some?
    requires r < |buf| && 0 < buf[r] < COMPRESSED
    requires var labels := Parse(buf, r, MAXNAMELEN - jumps).value; Plain(labels) && |raw| + Total(labels) <= MAXRAW
    ensures r + 1 + buf[r] <= |buf|
    ensures var next, more, rest := r + 1 + buf[r], More(buf, r, raw), Parse(buf, r + 1 + buf[r], MAXNAMELEN - jumps);
            && |more| <= MAXRAW
            && Copy(buf, r, raw, jumps, count) == Copy(buf, next, more, jumps, count + if jumps == 0 then 1 + buf[r] else 0)
            && rest.Some? && Plain(rest.value) && |more| + Total(rest.value) <= MAXRAW
  {
    var labels := Parse(buf, r, MAXNAMELEN - jumps).value;
    ParseCases(buf, r, MAXNAMELEN - jumps);
    hide Parse, Copy, Plain, Total, PlainLabel;
    WireStep([], labels);
    CopyLabel(buf, r, raw, jumps, count);
  }

  lemma WireLabelStep(buf: seq<byte>, r: nat, raw: seq<byte>, jumps: nat)
    requires Parse(buf, r, jumps).Some? && Plain(Parse(buf, r, jumps).value)
    requires r < |buf| && 0 < buf[r] < COMPRESSED
    ensures r + 1 + buf[r] <= |buf|
    ensures var rest := Parse(buf, r + 1 + buf[r], jumps);
            && rest.Some? && Plain(rest.value)
            && More(buf, r, raw) + Wire(rest.value) == raw + Wire(Parse(buf, r, jumps).value)
  {
    var labels := Parse(buf, r, jumps).value;
    ParseCases(buf, r, jumps);
    hide Parse, Plain, PlainLabel, Wire;
    LabelBytes(buf, r, labels[0]);
    WireStep(raw, labels);
  }

  lemma CopyStops(buf: seq<byte>, r: nat, raw: seq<byte>, jumps: nat, count: nat)
    requires r < |buf| && jumps <= MAXNAMELEN && |raw| <= MAXRAW && (buf[r] == 0 || |raw| == MAXRAW)
    ensures Copy(buf, r, raw, jumps, count) == Copied(raw, if jumps > 0 then count + 1 else count)
    ensures raw + Wire([]) == raw
  {
  }

  lemma CopyJump(buf: seq<byte>, r: nat, raw: seq<byte>, jumps: nat, count: nat)
    requires r + 1 < |buf| && buf[r] >= COMPRESSED && Offset(buf, r) < MAXNAMELEN && jumps < MAXNAMELEN && |raw| < MAXRAW
    ensures Copy(buf, r, raw, jumps, count) == Copy(buf, Offset(buf, r), raw, jumps + 1, count)
  {
  }

  lemma LabelBytes(buf: seq<byte>, r: nat, l: Label)
    requires r + 1 + |l| <= |buf| && buf[r] == |l| && buf[r + 1..r + 1 + |l|] == l
    ensures buf[r..r + 1 + |l|] == [|l|] + l
  {
  }

  lemma WireStep(raw: seq<byte>, labels: seq<Label>)
    requires labels != [] && Plain(labels)
    ensures PlainLabel(labels[0]) && Plain(labels[1..]) && |labels[0]| < 64
    ensures Total(labels) == |labels[0]| + 1 + Total(labels[1..])
    ensures raw + ([|labels[0]|] + labels[0]) + Wire(labels[1..]) == raw + Wire(labels)
  {
    assert PlainLabel(labels[0]);
    PlainTail(labels);
  }

  lemma ParseCases(buf: seq<byte>, r: nat, jumps: nat)
    requires Parse(buf, r, jumps).Some?
    ensures r < |buf|
    ensures buf[r] == 0 ==> Parse(buf, r, jumps).value == []
    ensures buf[r] >= COMPRESSED ==>
              jumps > 0 && r + 1 < |buf| && Offset(buf, r) < MAXNAMELEN && Parse(buf, Offset(buf, r), jumps - 1) == Parse(buf, r, jumps)
    ensures 0 < buf[r] < COMPRESSED ==>
              && buf[r] < 64 && r + 1 + buf[r] <= |buf| && Parse(buf, r + 1 + buf[r], jumps).Some?
              && Parse(buf, r, jumps).value == [buf[r + 1..r + 1 + buf[r]]] + Parse(buf, r + 1 + buf[r], jumps).value
              && Parse(buf, r, jumps).value[1..] == Parse(buf, r + 1 + buf[r], jumps).value
  {
  }

  // A label of the name is copied byte by byte
  lemma CopyLabel(buf: seq<byte>, r: nat, raw: seq<byte>, jumps: nat, count: nat)
    requires r < |buf| && 0 < buf[r] < 64 && r + 1 + buf[r] <= |buf| && PlainLabel(buf[r + 1..r + 1 + buf[r]])
    requires |raw| + 1 + buf[r] <= MAXRAW && jumps <= MAXNAMELEN
    ensures Copy(buf, r, raw, jumps, count) ==
            Copy(buf, r + 1 + buf[r], raw + buf[r..r + 1 + buf[r]], jumps, count + if jumps == 0 then 1 + buf[r] else 0)
  {
    var n := buf[r];
    var l := buf[r + 1..r + 1 + n];
    assert forall k :: r + 1 <= k < r + 1 + n ==> buf[k] == l[k - r - 1];
    CopyBytes(buf, r, 1 + n, raw, jumps, count);
  }

  lemma EmptyTotal(labels: seq<Label>)
    requires Total(labels) == 0
    ensures labels == []
  {
  }

  lemma PlainTail(labels: seq<Label>)
    requires labels != [] && Plain(labels)
    ensures Plain(labels[1..])
  {
  }

  // ---- The byte count ----

  /** After the first jump nothing is counted but the second byte of the pointer. */
  lemma {:induction false} CountJumped(buf: seq<byte>, r: nat, raw: seq<byte>, jumps: nat, count: nat)
    requires |raw| <= MAXRAW && 0 < jumps <= MAXNAMELEN
    ensures var c := Copy(buf, r, raw, jumps, count); c.Copied? ==> c.count == count + 1
    decreases MAXRAW - |raw| + MAXNAMELEN - jumps
  {
    if r < |buf| && buf[r] != 0 && |raw| < MAXRAW {
      if buf[r] >= COMPRESSED {
        if r + 1 < |buf| && Offset(buf, r) < MAXNAMELEN && jumps < MAXNAMELEN {
          CountJumped(buf, Offset(buf, r), raw, jumps + 1, count);
        }
      } else {
        CountJumped(buf, r + 1, raw + [buf[r]], jumps, count);
      }
    }
  }

  lemma {:induction false} CountLabels(buf: seq<byte>, r: nat, raw: seq<byte>, count: nat)
    requires |raw| <= MAXRAW && Parse(buf, r, MAXNAMELEN).Some?
    requires var labels := Parse(buf, r, MAXNAMELEN).value; Plain(labels) && |raw| + Total(labels) <= MAXRAW
    ensures var p := Prefix(buf, r);
            var c := Copy(buf, r, raw, 0, count);
            c.Copied? ==> c.count == count + p.0 + if p.1 && |raw| + p.0 < MAXRAW then 1 else 0
    decreases |buf| - r
  {
    var labels := Parse(buf, r, MAXNAMELEN).value;
    ParseCases(buf, r, MAXNAMELEN);
    hide Parse;
    if buf[r] >= COMPRESSED {
      if |raw| < MAXRAW {
        CountJumped(buf, Offset(buf, r), raw, 1, count);
      }
    } else if buf[r] != 0 {
      var n := buf[r];
      CopyLabel(buf, r, raw, 0, count);
      PlainTail(labels);
      assert PlainLabel(labels[0]);
      hide Copy, PlainLabel;
      CountLabels(buf, r + 1 + n, raw + buf[r..r + 1 + n], count + 1 + n);
    }
  }

  // ---- From lengths to dots ----

  predicate NonZero(raw: seq<byte>) {
    forall k :: 0 <= k < |raw| ==> raw[k] != 0
  }

  // The text with a dot behind every complete label, and whether no label was cut short
  function Convert(raw: seq<byte>, i: nat): (seq<byte>, bool)
    requires NonZero(raw)
    decreases |raw|
  {
    if raw == [] then ([], true)
    else if raw[0] >= 64 || i + raw[0] >= MAXNAMELEN then ([], true)
    else if |raw| < 1 + raw[0] then (raw[1..], false)
    else
      var rest := Convert(raw[1 + raw[0]..], i + 1 + raw[0]);
      (raw[1..1 + raw[0]] + [DOT] + rest.0, rest.1)
  }

  /** The second half of nameFromDNS(): the text of a raw name */
  function Dotted(raw: seq<byte>): seq<byte>
    requires NonZero(raw)
  {
    var c := Convert(raw, 0);
    if c.1 && c.0 != [] then c.0[..|c.0| - 1] else c.0
  }

  lemma {:induction false} WireNonZero(labels: seq<Label>)
    requires Plain(labels)
    ensures |Wire(labels)| == Total(labels) && NonZero(Wire(labels))
  {
    if labels != [] {
      assert PlainLabel(labels[0]);
      PlainTail(labels);
      WireNonZero(labels[1..]);
    }
  }

  lemma {:induction false} ConvertWire(labels: seq<Label>, i: nat)
    requires Plain(labels) && i + Total(labels) <= MAXRAW
    requires NonZero(Wire(labels))
    ensures Convert(Wire(labels), i) == (Dots(labels), true)
  {
    if labels != [] {
      var n := |labels[0]|;
      WireHead(labels);
      PlainTail(labels);
      WireNonZero(labels[1..]);
      assert PlainLabel(labels[0]);
      hide Wire, PlainLabel;
      ConvertWire(labels[1..], i + 1 + n);
    }
  }

  lemma {:induction false} DotsJoin(labels: seq<Label>)
    requires labels != []
    ensures Dots(labels) == Join(labels) + [DOT]
  {
    if |labels| > 1 {
      DotsJoin(labels[1..]);
    } else {
      assert Dots(labels[1..]) == [];
    }
  }

  // ---- The whole decoder ----

  datatype Decoded = Malformed | Name(text: seq<byte>, count: nat)

  lemma {:induction false} CopyNonZero(buf: seq<byte>, r: nat, raw: seq<byte>, jumps: nat, count: nat)
    requires |raw| <= MAXRAW && jumps <= MAXNAMELEN && NonZero(raw)
    ensures var c := Copy(buf, r, raw, jumps, count); c.Copied? ==> NonZero(c.raw)
    decreases MAXRAW - |raw| + MAXNAMELEN - jumps
  {
    if r < |buf| && buf[r] != 0 && |raw| < MAXRAW {
      if buf[r] >= COMPRESSED {
        if r + 1 < |buf| && Offset(buf, r) < MAXNAMELEN && jumps < MAXNAMELEN {
          CopyNonZero(buf, Offset(buf, r), raw, jumps + 1, count);
        }
      } else {
        CopyNonZero(buf, r + 1, raw + [buf[r]], jumps, if jumps == 0 then count + 1 else count);
      }
    }
  }

  /** nameFromDNS() */
  function Decode(buf: seq<byte>, start: nat): Decoded {
    match Copy(buf, start, [], 0, 1)
    case Failed => Malformed
    case Copied(raw, count) =>
      CopyNonZero(buf, start, [], 0, 1);
      Name(Dotted(raw), count)
  }

  /** Any name of at most 253 characters, compressed or not, decodes to its labels joined
      by dots. The byte count is the extent of the name, except when a pointer comes after
      exactly 254 bytes of labels: then it is one too small. */
  lemma DecodeIsParse(buf: seq<byte>, r: nat)
    requires Parse(buf, r, MAXNAMELEN).Some?
    requires var labels := Parse(buf, r, MAXNAMELEN).value; Plain(labels) && Total(labels) <= MAXRAW
    ensures var labels, p, d := Parse(buf, r, MAXNAMELEN).value, Prefix(buf, r), Decode(buf, r);
            && d.Name? && d.text == Join(labels)
            && (d.count == Extent(buf, r) <==> !(p.1 && p.0 >= MAXRAW))
            && (p.1 && p.0 >= MAXRAW ==> d.count == Extent(buf, r) - 1)
  {
    var labels := Parse(buf, r, MAXNAMELEN).value;
    CopyLabels(buf, r, [], 0, 1, labels);
    CountLabels(buf, r, [], 1);
    assert [] + Wire(labels) == Wire(labels);
    WireNonZero(labels);
    ConvertWire(labels, 0);
    if labels != [] {
      DotsJoin(labels);
    }
  }

  // ---- Encoding ----

  // The characters before position `lock` are written, those up to i have been read
  function Encode(host: seq<byte>, lock: nat, i: nat): seq<byte>
    requires lock <= i <= |host|
    decreases |host| - i
  {
    if i == |host| then []
    else if host[i] == DOT then [(i - lock) % 256] + host[lock..i] + Encode(host, i + 1, i + 1)
    else Encode(host, lock, i + 1)
  }

  /** The wire form of a host name that ends in a dot */
  function ToWire(host: seq<byte>): seq<byte> {
    Encode(host, 0, 0) + [0]
  }

  ghost predicate Dotless(labels: seq<Label>) {
    forall i :: 0 <= i < |labels| ==> DOT !in labels[i]
  }

  lemma {:induction false} EncodeLabel(host: seq<byte>, lock: nat, i: nat, n: nat)
    requires lock <= i <= lock + n < |host| && host[lock + n] == DOT
    requires forall k :: lock <= k < lock + n ==> host[k] != DOT
    ensures Encode(host, lock, i) == [n % 256] + host[lock..lock + n] + Encode(host, lock + n + 1, lock + n + 1)
    decreases lock + n - i
  {
    if i < lock + n {
      EncodeLabel(host, lock, i + 1, n);
    }
  }

  lemma {:induction false} EncodeDots(host: seq<byte>, lock: nat, labels: seq<Label>)
    requires Plain(labels) && Dotless(labels) && At(host, lock, Dots(labels)) && lock + |Dots(labels)| == |host|
    ensures Encode(host, lock, lock) == Wire(labels)
    decreases |labels|
  {
    if labels == [] {
      hide At;
    } else {
      var n := |labels[0]|;
      assert Dots(labels) == labels[0] + [DOT] + Dots(labels[1..]);
      assert DOT !in labels[0] && Dotless(labels[1..]) && PlainLabel(labels[0]) && n < 64;
      assert Wire(labels) == [n] + labels[0] + Wire(labels[1..]);
      hide *;
      HostLabel(host, lock, labels[0], Dots(labels[1..]));
      PlainTail(labels);
      EncodeLabel(host, lock, lock, n);
      EncodeDots(host, lock + n + 1, labels[1..]);
    }
  }

  lemma HostLabel(host: seq<byte>, lock: nat, l: Label, tail: seq<byte>)
    requires At(host, lock, l + [DOT] + tail)
    ensures lock + |l| < |host| && host[lock + |l|] == DOT && host[lock..lock + |l|] == l && At(host, lock + |l| + 1, tail)
    ensures forall k :: lock <= k < lock + |l| ==> host[k] == l[k - lock]
  {
    AtSplit(host, lock, l + [DOT], tail);
    AtSplit(host, lock, l, [DOT]);
    AtFirst(host, lock + |l|, [DOT]);
    assert forall k :: lock <= k < lock + |l| ==> host[k] == host[lock..lock + |l|][k - lock];
  }

  function Prepend(labels: seq<Label>, rest: Option<seq<Label>>): Option<seq<Label>> {
    if rest.None? then None else Some(labels + rest.value)
  }

  lemma ParseLabel(buf: seq<byte>, r: nat, l: Label, jumps: nat)
    requires 1 <= |l| < 64 && At(buf, r, [|l|] + l)
    ensures Parse(buf, r, jumps) == Prepend([l], Parse(buf, r + 1 + |l|, jumps))
    ensures Prefix(buf, r) == (1 + |l| + Prefix(buf, r + 1 + |l|).0, Prefix(buf, r + 1 + |l|).1)
  {
    AtSplit(buf, r, [|l|], l);
    AtFirst(buf, r, [|l|]);
  }

  /** Labels on the wire are read one by one, whatever follows them. */
  lemma {:induction false} ParseWire(buf: seq<byte>, r: nat, labels: seq<Label>, jumps: nat)
    requires Plain(labels) && At(buf, r, Wire(labels))
    ensures Parse(buf, r, jumps) == Prepend(labels, Parse(buf, r + Total(labels), jumps))
    decreases |labels|
  {
    hide *;
    if labels == [] {
      TotalNone(labels);
      PrependNone(Parse(buf, r, jumps));
    } else {
      ParseWireStep(buf, r, labels, jumps);
      var next, end := r + 1 + |labels[0]|, r + Total(labels);
      ParseWire(buf, next, labels[1..], jumps);
      assert next + Total(labels[1..]) == end;
      PrependAll(labels, Parse(buf, end, jumps));
    }
  }

  lemma {:induction false} PrefixWire(buf: seq<byte>, r: nat, labels: seq<Label>)
    requires Plain(labels) && At(buf, r, Wire(labels))
    ensures Prefix(buf, r).0 == Total(labels) + Prefix(buf, r + Total(labels)).0
    ensures Prefix(buf, r).1 == Prefix(buf, r + Total(labels)).1
    decreases |labels|
  {
    hide *;
    if labels == [] {
      TotalNone(labels);
    } else {
      ParseWireStep(buf, r, labels, 0);
      var next, end := r + 1 + |labels[0]|, r + Total(labels);
      PrefixWire(buf, next, labels[1..]);
      assert next + Total(labels[1..]) == end;
    }
  }

  lemma TotalNone(labels: seq<Label>)
    requires labels == []
    ensures Total(labels) == 0
  {
  }

  lemma ParseWireStep(buf: seq<byte>, r: nat, labels: seq<Label>, jumps: nat)
    requires labels != [] && Plain(labels) && At(buf, r, Wire(labels))
    ensures var l := labels[0];
            var next := r + 1 + |l|;
            && Plain(labels[1..]) && At(buf, next, Wire(labels[1..])) && Total(labels) == 1 + |l| + Total(labels[1..])
            && Parse(buf, r, jumps) == Prepend([l], Parse(buf, next, jumps))
            && Prefix(buf, r) == (1 + |l| + Prefix(buf, next).0, Prefix(buf, next).1)
  {
    var l := labels[0];
    assert PlainLabel(l) && Wire(labels) == [|l|] + l + Wire(labels[1..]);
    PlainTail(labels);
    hide Parse, Prefix, Plain;
    AtSplit(buf, r, [|l|] + l, Wire(labels[1..]));
    ParseLabel(buf, r, l, jumps);
  }

  lemma PrependNone(rest: Option<seq<Label>>)
    ensures Prepend([], rest) == rest
  {
    if rest.Some? {
      assert [] + rest.value == rest.value;
    }
  }

  lemma PrependAll(labels: seq<Label>, rest: Option<seq<Label>>)
    requires labels != []
    ensures Prepend([labels[0]], Prepend(labels[1..], rest)) == Prepend(labels, rest)
  {
    if rest.Some? {
      assert [labels[0]] + (labels[1..] + rest.value) == labels + rest.value;
    }
  }

  /** Any dotted name (at least one label, labels of 1 to 63 bytes, at most 253 characters
      in all), encoded and placed anywhere in a message, decodes to itself, and the count
      is the length of the encoding. */
  lemma RoundTrip(before: seq<byte>, labels: seq<Label>, after: seq<byte>)
    requires labels != [] && Plain(labels) && Dotless(labels) && |Join(labels)| <= 253
    ensures var wire := ToWire(Join(labels) + [DOT]);
            Decode(before + wire + after, |before|) == Name(Join(labels), |wire|)
  {
    hide *;
    var wire := ToWire(Join(labels) + [DOT]);
    var buf := before + wire + after;
    WireIs(labels);
    WireLength(labels);
    InPlace(before, wire, after);
    WireParses(buf, |before|, labels);
    DecodeIsParse(buf, |before|);
  }

  lemma InPlace(before: seq<byte>, wire: seq<byte>, after: seq<byte>)
    ensures At(before + wire + after, |before|, wire)
  {
    assert (before + wire + after)[|before|..|before| + |wire|] == wire;
  }

  lemma WireLength(labels: seq<Label>)
    requires labels != [] && Plain(labels) && Dotless(labels) && |Join(labels)| <= 253
    ensures |Wire(labels)| == Total(labels) <= MAXRAW
  {
    hide Plain, Dotless;
    DotsJoin(labels);
    DotsLength(labels);
    WireNonZero(labels);
  }

  // The labels of a wire form, and the bytes they take
  lemma WireParses(buf: seq<byte>, r: nat, labels: seq<Label>)
    requires Plain(labels) && At(buf, r, Wire(labels) + [0]) && |Wire(labels)| == Total(labels) <= MAXRAW
    ensures Parse(buf, r, MAXNAMELEN) == Some(labels)
    ensures Prefix(buf, r) == (Total(labels), false) && Extent(buf, r) == Total(labels) + 1
  {
    hide At, Wire, Total;
    AtSplit(buf, r, Wire(labels), [0]);
    ParseWire(buf, r, labels, MAXNAMELEN);
    PrefixWire(buf, r, labels);
    AtFirst(buf, r + Total(labels), [0]);
    assert labels + [] == labels;
  }

  lemma WireIs(labels: seq<Label>)
    requires labels != [] && Plain(labels) && Dotless(labels)
    ensures ToWire(Join(labels) + [DOT]) == Wire(labels) + [0]
  {
    var host := Join(labels) + [DOT];
    DotsJoin(labels);
    assert host[0..|host|] == host;
    EncodeDots(host, 0, labels);
  }

  lemma {:induction false} DotsLength(labels: seq<Label>)
    ensures |Dots(labels)| == Total(labels)
  {
    if labels != [] {
      DotsLength(labels[1..]);
    }
  }

  /** A compression pointer stands for the suffix it points to: prefix labels followed by a
      pointer read as the prefix labels plus the labels at the target. */
  lemma ParseCompressed(buf: seq<byte>, r: nat, prefix: seq<Label>, high: byte, low: byte, jumps: nat)
    requires Plain(prefix) && jumps > 0 && At(buf, r, Wire(prefix) + [high, low])
    requires high >= COMPRESSED && (high - COMPRESSED) * 256 + low < MAXNAMELEN
    ensures Parse(buf, r, jumps) == Prepend(prefix, Parse(buf, (high - COMPRESSED) * 256 + low, jumps - 1))
    ensures Extent(buf, r) == Total(prefix) + 2 && Prefix(buf, r) == (Total(prefix), true)
  {
    AtSplit(buf, r, Wire(prefix), [high, low]);
    WireNonZero(prefix);
    var next := r + Total(prefix);
    assert At(buf, next, [high] + [low]) by {
      assert [high] + [low] == [high, low];
    }
    LinkAt(buf, next, high, low, jumps);
    hide *;
    ParseWire(buf, r, prefix, jumps);
    PrefixWire(buf, r, prefix);
    ExtentIs(buf, r);
  }

  lemma LinkAt(buf: seq<byte>, r: nat, high: byte, low: byte, jumps: nat)
    requires jumps > 0 && At(buf, r, [high] + [low]) && high >= COMPRESSED && (high - COMPRESSED) * 256 + low < MAXNAMELEN
    ensures Parse(buf, r, jumps) == Parse(buf, (high - COMPRESSED) * 256 + low, jumps - 1)
    ensures Prefix(buf, r) == (0, true)
  {
    AtSplit(buf, r, [high], [low]);
    AtFirst(buf, r, [high]);
    AtFirst(buf, r + 1, [low]);
    hide At;
  }

  lemma ExtentIs(buf: seq<byte>, r: nat)
    ensures Extent(buf, r) == Prefix(buf, r).0 + if Prefix(buf, r).1 then 2 else 1
  {
  }

  lemma WireHead(labels: seq<Label>)
    requires labels != [] && Plain(labels)
    ensures var w, n := Wire(labels), |labels[0]|;
            && |w| == Total(labels) && 1 + n <= |w|
            && w[0] == n && w[1..1 + n] == labels[0] && w[1 + n..] == Wire(labels[1..])
  {
    assert PlainLabel(labels[0]);
    PlainTail(labels);
    WireNonZero(labels);
  }

  function Letters(n: nat): (l: Label)
    ensures |l| == n && forall k :: 0 <= k < n ==> l[k] == 97
  {
    seq(n, k => 97)
  }

  lemma TotalCons(l: Label, rest: seq<Label>)
    ensures Total([l] + rest) == |l| + 1 + Total(rest)
  {
    assert ([l] + rest)[1..] == rest;
  }

  /** The count does miss a byte: labels of 63, 63, 63 and 61 letters and a pointer to the
      root take 256 bytes, and the decoder reports 255. */
  lemma CountTooSmall()
    ensures var labels := [Letters(63), Letters(63), Letters(63), Letters(61)];
            var buf := [0] + Wire(labels) + [COMPRESSED, 0];
            Extent(buf, 1) == 256 && Decode(buf, 1) == Name(Join(labels), 255)
  {
    var labels := [Letters(63), Letters(63), Letters(63), Letters(61)];
    var buf := [0] + Wire(labels) + [COMPRESSED, 0];
    assert Plain(labels);
    assert Total(labels) == 254 by {
      var a, b := Letters(63), Letters(61);
      TotalCons(b, []);
      TotalCons(a, [b]);
      TotalCons(a, [a, b]);
      TotalCons(a, [a, a, b]);
      assert labels == [a] + [a, a, b] && [a, a, b] == [a] + [a, b] && [a, b] == [a] + [b] && [b] == [b] + [];
    }
    var w := Wire(labels) + [COMPRESSED, 0];
    assert buf[1..1 + |w|] == w;
    assert buf[0] == 0;
    WireNonZero(labels);
    assert Parse(buf, 0, MAXNAMELEN - 1) == Some([]);
    assert At(buf, 1, w);
    assert labels + [] == labels;
    hide Wire, Plain, Total, Join, Parse, Prefix, Decode, Extent, At;
    ParseCompressed(buf, 1, labels, COMPRESSED, 0, MAXNAMELEN);
    DecodeIsParse(buf, 1);
  }

  // ---- In place, as the program does it ----

  // The C string at the start of a buffer
  function CText(mem: seq<byte>): seq<byte> {
    if mem == [] || mem[0] == 0 then [] else [mem[0]] + CText(mem[1..])
  }

  lemma {:induction false} CTextIs(mem: seq<byte>, t: seq<byte>)
    requires |t| < |mem| && mem[..|t|] == t && NonZero(t) && mem[|t|] == 0
    ensures CText(mem) == t
    decreases |t|
  {
    if t != [] {
      assert mem[0] == mem[..|t|][0] == t[0];
      assert mem[1..][..|t| - 1] == mem[..|t|][1..] == t[1..];
      CTextIs(mem[1..], t[1..]);
    }
  }

  method StrLen(name: array<byte>) returns (n: nat)
    ensures n <= name.Length && NonZero(name[..n]) && (n < name.Length ==> name[n] == 0)
  {
    n := 0;
    while n < name.Length && name[n] != 0
      invariant n <= name.Length && NonZero(name[..n])
    {
      n := n + 1;
    }
  }

  // One label moves down over its length byte, and a dot follows it
  method ShiftLabel(name: array<byte>, i: nat, n: nat)
    requires i + n < name.Length
    modifies name
    ensures name[..] == Shifted(old(name[..]), i, n)
  {
    ghost var was := name[..];
    for j := 0 to n
      invariant forall k :: i <= k < i + j ==> name[k] == was[k + 1]
      invariant forall k :: 0 <= k < name.Length && !(i <= k < i + j) ==> name[k] == was[k]
    {
      name[i + j] := name[i + j + 1];
    }
    name[i + n] := DOT;
    ShiftedBytes(was, i, n);
  }

  function Shifted(mem: seq<byte>, i: nat, n: nat): (r: seq<byte>)
    requires i + n < |mem|
    ensures |r| == |mem|
  {
    mem[..i] + mem[i + 1..i + 1 + n] + [DOT] + mem[i + 1 + n..]
  }

  lemma ShiftedBytes(mem: seq<byte>, i: nat, n: nat)
    requires i + n < |mem|
    ensures var r := Shifted(mem, i, n);
            && r[i + n] == DOT
            && (forall k :: i <= k < i + n ==> r[k] == mem[k + 1])
            && (forall k :: 0 <= k < |mem| && !(i <= k <= i + n) ==> r[k] == mem[k])
  {
  }

  // The first i bytes are converted, the rest of the raw name is as it was copied
  ghost predicate Stage(mem: seq<byte>, raw: seq<byte>, i: nat, out: seq<byte>) {
    && |mem| == MAXNAMELEN && |raw| <= MAXRAW && NonZero(raw) && i <= |raw|
    && |out| == i && NonZero(out)
    && mem == out + raw[i..] + seq(MAXNAMELEN - |raw|, k => 0)
    && Convert(raw, 0) == (out + Convert(raw[i..], i).0, Convert(raw[i..], i).1)
  }

  lemma StageLength(mem: seq<byte>, raw: seq<byte>, i: nat, out: seq<byte>, n: nat)
    requires Stage(mem, raw, i, out) && n <= |mem| && NonZero(mem[..n]) && (n < |mem| ==> mem[n] == 0)
    ensures n == |raw|
  {
    StageBytes(mem, raw, i, out);
    assert forall k :: 0 <= k < i ==> mem[k] == mem[..i][k];
    assert NonZero(mem[..|raw|]);
    StrLenText(mem, n);
    StrLenText(mem, |raw|);
    assert |mem[..n]| == |mem[..|raw|]|;
  }

  lemma StageNext(mem: seq<byte>, raw: seq<byte>, i: nat, out: seq<byte>)
    requires Stage(mem, raw, i, out) && i < |raw| && raw[i] < 64 && i + 1 + raw[i] <= |raw|
    ensures var n := raw[i];
            Stage(Shifted(mem, i, n), raw, i + 1 + n, out + raw[i + 1..i + 1 + n] + [DOT])
  {
    var n := raw[i];
    var more := out + raw[i + 1..i + 1 + n] + [DOT];
    assert raw[i..][1..1 + n] == raw[i + 1..i + 1 + n] && raw[i..][1 + n..] == raw[i + 1 + n..];
    var rest := Convert(raw[i + 1 + n..], i + 1 + n);
    assert out + (raw[i + 1..i + 1 + n] + [DOT] + rest.0) == more + rest.0;
    ShiftedStage(mem, raw, i, out);
  }

  lemma ShiftedStage(mem: seq<byte>, raw: seq<byte>, i: nat, out: seq<byte>)
    requires Stage(mem, raw, i, out) && i < |raw| && i + 1 + raw[i] <= |raw|
    ensures var n := raw[i];
            Shifted(mem, i, n) == out + raw[i + 1..i + 1 + n] + [DOT] + raw[i + 1 + n..] + seq(MAXNAMELEN - |raw|, k => 0)
  {
    var n := raw[i];
    var r, t := Shifted(mem, i, n), out + raw[i + 1..i + 1 + n] + [DOT] + raw[i + 1 + n..] + seq(MAXNAMELEN - |raw|, k => 0);
    StageBytes(mem, raw, i, out);
    ShiftedBytes(mem, i, n);
    hide Shifted, Stage, NonZero;
    forall k | 0 <= k < MAXNAMELEN
      ensures r[k] == t[k]
    {
      if k < i {
        assert mem[k] == mem[..i][k];
      }
    }
  }

  lemma StageBytes(mem: seq<byte>, raw: seq<byte>, i: nat, out: seq<byte>)
    requires Stage(mem, raw, i, out)
    ensures mem[..i] == out
    ensures forall k :: i <= k < |raw| ==> mem[k] == raw[k]
    ensures forall k :: |raw| <= k < MAXNAMELEN ==> mem[k] == 0
  {
  }

  // The last label is cut short: the string ends where the raw name did
  lemma StageShort(mem: seq<byte>, raw: seq<byte>, i: nat, out: seq<byte>)
    requires Stage(mem, raw, i, out) && i < |raw| && raw[i] < 64 && i + raw[i] < MAXNAMELEN && i + 1 + raw[i] > |raw|
    ensures var n := raw[i];
            var r := Shifted(mem, i, n);
            && |r| == MAXNAMELEN && r[..|raw| - 1] == Dotted(raw) && r[|raw| - 1] == 0 && NonZero(Dotted(raw))
  {
    var n := raw[i];
    var r := Shifted(mem, i, n);
    StageBytes(mem, raw, i, out);
    assert raw[i..][1..] == raw[i + 1..];
    assert Dotted(raw) == out + raw[i + 1..];
    assert r[..|raw| - 1] == out + raw[i + 1..];
  }

  lemma StageEnd(mem: seq<byte>, raw: seq<byte>, i: nat, out: seq<byte>)
    requires Stage(mem, raw, i, out)
    requires i == |raw| || raw[i] >= 64 || i + raw[i] >= MAXNAMELEN
    ensures Dotted(raw) == if i > 0 then out[..i - 1] else []
    ensures i > 0 ==> CText(mem[i - 1 := 0]) == Dotted(raw)
    ensures i > 0 ==> CText(mem[i := 0][i - 1 := 0]) == Dotted(raw)
    ensures i == 0 ==> CText(mem[0 := 0]) == Dotted(raw) && CText(mem[0 := 0][0 := 0]) == Dotted(raw)
  {
    assert out + [] == out;
    StageBytes(mem, raw, i, out);
    if i > 0 {
      assert mem[i - 1 := 0][..i - 1] == mem[..i][..i - 1] == mem[i := 0][i - 1 := 0][..i - 1];
      hide Stage, Dotted;
      CTextIs(mem[i - 1 := 0], out[..i - 1]);
      CTextIs(mem[i := 0][i - 1 := 0], out[..i - 1]);
    }
  }

  // The loop has met a label that is cut short
  ghost predicate Short(mem: seq<byte>, raw: seq<byte>, i: nat) {
    && |mem| == MAXNAMELEN && |raw| < i <= MAXNAMELEN && NonZero(raw)
    && CText(mem[i - 1 := 0]) == Dotted(raw) && CText(mem) == Dotted(raw)
    && |Dotted(raw)| < |raw|
  }

  /** The second half of nameFromDNS() */
  method DotInPlace(name: array<byte>, ghost raw: seq<byte>)
    requires name.Length == MAXNAMELEN && |raw| <= MAXRAW && NonZero(raw)
    requires Stage(name[..], raw, 0, [])
    modifies name
    ensures CText(name[..]) == Dotted(raw)
  {
    hide *;
    var i: nat := 0;
    ghost var out: seq<byte> := [];
    var len := StrLen(name);
    GoingStarts(name[..], raw, len);
    while i < len
      invariant i <= name.Length && Going(name[..], raw, i, out, len)
      decreases name.Length - i
    {
      GoingOn(name[..], raw, i, out, len);
      var n := name[i];
      if n >= 64 || i + n >= MAXNAMELEN {
        CutHere(name, i, raw, out);
        return;
      }
      len, out := Turn(name, i, raw, out);
      i := i + n + 1;
    }
    StripDot(name, i, raw, out, len);
  }

  // The state of the loop: still converting, or past a label that is cut short
  ghost predicate Going(mem: seq<byte>, raw: seq<byte>, i: nat, out: seq<byte>, len: nat) {
    if i <= |raw| then Stage(mem, raw, i, out) && len == |raw| else Short(mem, raw, i) && len < i
  }

  lemma GoingStarts(mem: seq<byte>, raw: seq<byte>, len: nat)
    requires Stage(mem, raw, 0, []) && len <= |mem| && NonZero(mem[..len]) && (len < |mem| ==> mem[len] == 0)
    ensures Going(mem, raw, 0, [], len)
  {
    StageLength(mem, raw, 0, [], len);
  }

  lemma GoingOn(mem: seq<byte>, raw: seq<byte>, i: nat, out: seq<byte>, len: nat)
    requires Going(mem, raw, i, out, len) && i < len
    ensures Stage(mem, raw, i, out) && i < |raw| && i < |mem| && mem[i] == raw[i]
  {
    hide Stage, Short;
    StageAt(mem, raw, i, out);
  }

  lemma StageAt(mem: seq<byte>, raw: seq<byte>, i: nat, out: seq<byte>)
    requires Stage(mem, raw, i, out) && i < |raw|
    ensures i < |mem| && mem[i] == raw[i]
  {
    StageBytes(mem, raw, i, out);
  }

  lemma StageStart(raw: seq<byte>)
    requires |raw| <= MAXRAW && NonZero(raw)
    ensures Stage(raw + seq(MAXNAMELEN - |raw|, k => 0), raw, 0, [])
  {
    assert raw[0..] == raw && [] + Convert(raw, 0).0 == Convert(raw, 0).0;
  }

  // A length byte that cannot be one ends the string, and so goes the dot before it
  method CutHere(name: array<byte>, i: nat, ghost raw: seq<byte>, ghost out: seq<byte>)
    requires Stage(name[..], raw, i, out) && i < |raw| && i < name.Length && (raw[i] >= 64 || i + raw[i] >= MAXNAMELEN)
    modifies name
    ensures NonZero(raw) && CText(name[..]) == Dotted(raw)
  {
    assert NonZero(raw);
    StageEnd(name[..], raw, i, out);
    hide *;
    Poke(name, i);
    Poke(name, if i > 0 then i - 1 else i);
  }

  method StripDot(name: array<byte>, i: nat, ghost raw: seq<byte>, ghost out: seq<byte>, len: nat)
    requires name.Length == MAXNAMELEN && i <= name.Length && Going(name[..], raw, i, out, len) && i >= len && NonZero(raw)
    modifies name
    ensures CText(name[..]) == Dotted(raw)
  {
    if i > |raw| {
      ShortEnd(name[..], raw, i);
    } else {
      StageEnd(name[..], raw, i, out);
      StageFits(name[..], raw, i, out);
    }
    hide *;
    Poke(name, if i > 0 then i - 1 else i);
  }

  lemma StageFits(mem: seq<byte>, raw: seq<byte>, i: nat, out: seq<byte>)
    requires Stage(mem, raw, i, out)
    ensures i < |mem|
  {
  }

  // One label is converted and the string measured again
  method Turn(name: array<byte>, i: nat, ghost raw: seq<byte>, ghost out: seq<byte>) returns (len: nat, ghost more: seq<byte>)
    requires Stage(name[..], raw, i, out) && i < |raw| && i < name.Length && name[i] == raw[i] < 64 && i + raw[i] < MAXNAMELEN
    modifies name
    ensures Going(name[..], raw, i + 1 + raw[i], more, len)
  {
    assert name.Length == MAXNAMELEN;
    TurnKeeps(name[..], raw, i, out);
    hide Stage, Short, NonZero;
    ShiftLabel(name, i, name[i]);
    len := StrLen(name);
    var next := i + 1 + raw[i];
    more := out;
    if next <= |raw| {
      more := out + raw[i + 1..next] + [DOT];
      StageLength(name[..], raw, next, more, len);
    } else {
      ShortLength(name[..], raw, next, len);
    }
  }

  method Poke(name: array<byte>, i: nat)
    requires i < name.Length
    modifies name
    ensures name[..] == old(name[..])[i := 0]
  {
    name[i] := 0;
  }

  lemma ShortLength(mem: seq<byte>, raw: seq<byte>, i: nat, len: nat)
    requires Short(mem, raw, i) && len <= |mem| && NonZero(mem[..len]) && (len < |mem| ==> mem[len] == 0)
    ensures len < i
  {
    StrLenText(mem, len);
    assert |mem[..len]| == len;
  }

  lemma ShortEnd(mem: seq<byte>, raw: seq<byte>, i: nat)
    requires Short(mem, raw, i)
    ensures i > 0 && |mem| == MAXNAMELEN && i <= MAXNAMELEN && CText(mem[i - 1 := 0]) == Dotted(raw)
  {
  }

  // One turn of the loop
  lemma TurnKeeps(mem: seq<byte>, raw: seq<byte>, i: nat, out: seq<byte>)
    requires Stage(mem, raw, i, out) && i < |raw| && raw[i] < 64 && i + raw[i] < MAXNAMELEN
    ensures var n := raw[i];
            var r := Shifted(mem, i, n);
            if i + 1 + n <= |raw| then Stage(r, raw, i + 1 + n, out + raw[i + 1..i + 1 + n] + [DOT])
            else Short(r, raw, i + 1 + n)
  {
    var n := raw[i];
    if i + 1 + n <= |raw| {
      StageNext(mem, raw, i, out);
    } else {
      var r := Shifted(mem, i, n);
      StageShort(mem, raw, i, out);
      hide Stage, Dotted;
      assert r[i + n := 0][..|raw| - 1] == r[..|raw| - 1] == Dotted(raw);
      assert |r[..|raw| - 1]| == |Dotted(raw)|;
      CTextIs(r, Dotted(raw));
      CTextIs(r[i + n := 0], Dotted(raw));
    }
  }

  /** nameFromDNS(): on every buffer and from every position it ends, reads in range, and
      gives what Decode() says. */
  method NameFromDNS(buf: seq<byte>, start: nat) returns (r: Decoded)
    ensures r == Decode(buf, start)
  {
    var c := CopyLoop(buf, start);
    CopyNonZero(buf, start, [], 0, 1);
    if c.Failed? {
      return Malformed;
    }
    var name := new byte[MAXNAMELEN](k => 0);
    forall k | 0 <= k < |c.raw| {
      name[k] := c.raw[k];
    }
    assert name[..] == c.raw + seq(MAXNAMELEN - |c.raw|, k => 0);
    StageStart(c.raw);
    hide Stage, Dotted, Copy, CText;
    DotInPlace(name, c.raw);
    var n := StrLen(name);
    StrLenText(name[..], n);
    r := Name(name[..n], c.count);
  }

  lemma StrLenText(mem: seq<byte>, n: nat)
    requires n <= |mem| && NonZero(mem[..n]) && (n < |mem| ==> mem[n] == 0)
    ensures CText(mem) == mem[..n]
  {
    if n < |mem| {
      CTextIs(mem, mem[..n]);
    } else {
      assert mem[..n] == mem;
      CTextAll(mem);
    }
  }

  lemma {:induction false} CTextAll(mem: seq<byte>)
    requires NonZero(mem)
    ensures CText(mem) == mem
  {
    if mem != [] {
      CTextAll(mem[1..]);
    }
  }

  // The bytes written for a host: its wire form, cut at the size of the buffer
  ghost function Fitting(host: seq<byte>, dnslen: nat): (r: seq<byte>)
    ensures |r| <= dnslen && (|r| < dnslen <==> |Encode(host, 0, 0)| < dnslen)
  {
    var w := Encode(host, 0, 0);
    if |w| <= dnslen then w else w[..dnslen]
  }

  /** nameToDNS() into a buffer of dnslen bytes. Both loops stop when it is full, but the
      terminator is written behind them in any case: the array has one byte more than the
      buffer, and the terminator lands in it exactly if the wire form fills the buffer. */
  method NameToDNS(dns: array<byte>, dnslen: nat, host: seq<byte>) returns (n: nat)
    requires dnslen < dns.Length
    modifies dns
    ensures n == |Fitting(host, dnslen)| + 1 && dns[..n] == Fitting(host, dnslen) + [0]
    ensures dns[n..] == old(dns[n..])
    ensures n <= dnslen <==> |Encode(host, 0, 0)| < dnslen
    ensures n <= dnslen ==> dns[..n] == ToWire(host)
  {
    ghost var was := dns[..];
    n := LabelsOut(dns, dnslen, host);
    dns[n] := 0;
    n := n + 1;
    hide *;
    assert dns[..n] == dns[..n - 1] + [0] && dns[..n - 1] == Fitting(host, dnslen);
    assert dns[n..] == was[n..];
  }

  // The loop over the dots of a host
  method LabelsOut(dns: array<byte>, dnslen: nat, host: seq<byte>) returns (n: nat)
    requires dnslen < dns.Length
    modifies dns
    ensures n <= dnslen && dns[..n] == Fitting(host, dnslen) && dns[n..] == old(dns[n..])
  {
    ghost var w, was := Encode(host, 0, 0), dns[..];
    var lock: nat, i: nat := 0, 0;
    ghost var rest := w;
    hide Encode;
    n := 0;
    while i < |host| && n < dnslen
      invariant i <= |host| && n <= dnslen && n <= |w| && dns[..n] == w[..n] && dns[n..] == was[n..]
      invariant n < dnslen ==> lock <= i && rest == Encode(host, lock, i) && rest == w[n..]
      decreases |host| - i
    {
      EncodeStep(host, lock, i);
      if host[i] == DOT {
        ghost var out: seq<byte> := [(i - lock) % 256] + host[lock..i];
        rest := Encode(host, i + 1, i + 1);
        var m := LabelOut(dns, n, dnslen, host, lock, i);
        PrefixOf(w, n, out, rest, m - n);
        assert dns[m..] == was[m..];
        n, lock := m, i + 1;
      }
      i := i + 1;
    }
    if n < dnslen {
      EncodeEnd(host, lock);
    }
  }

  lemma EncodeStep(host: seq<byte>, lock: nat, i: nat)
    requires lock <= i < |host|
    ensures Encode(host, lock, i) == if host[i] == DOT then [(i - lock) % 256] + host[lock..i] + Encode(host, i + 1, i + 1)
                                     else Encode(host, lock, i + 1)
  {
  }

  lemma EncodeEnd(host: seq<byte>, lock: nat)
    requires lock <= |host|
    ensures Encode(host, lock, |host|) == []
  {
  }

  lemma PrefixOf(w: seq<byte>, n: nat, b: seq<byte>, c: seq<byte>, k: nat)
    requires n <= |w| && w[n..] == b + c && k <= |b|
    ensures n + k <= |w| && w[..n] + b[..k] == w[..n + k] && (k == |b| ==> c == w[n + k..])
  {
    assert w == w[..n] + (b + c);
  }

  lemma OneMore(a: seq<byte>, b: seq<byte>, host: seq<byte>, lock: nat, k: nat)
    requires lock <= k < |host|
    ensures a + (b + host[lock..k]) + [host[k]] == a + (b + host[lock..k + 1])
  {
    assert host[lock..k + 1] == host[lock..k] + [host[k]];
  }

  // The label host[lock..i] behind its length, as far as the buffer reaches
  method LabelOut(dns: array<byte>, n: nat, dnslen: nat, host: seq<byte>, lock: nat, i: nat) returns (m: nat)
    requires lock <= i < |host| && n < dnslen < dns.Length
    modifies dns
    ensures m == if n + 1 + (i - lock) <= dnslen then n + 1 + (i - lock) else dnslen
    ensures dns[..m] == old(dns[..n]) + ([(i - lock) % 256] + host[lock..i])[..m - n]
    ensures dns[m..] == old(dns[m..])
  {
    ghost var was := dns[..];
    var k := lock;
    dns[n] := (i - lock) % 256;
    m := n + 1;
    while k < i && m < dnslen
      invariant lock <= k <= i && m == n + 1 + (k - lock) <= dnslen
      invariant dns[..m] == was[..n] + ([(i - lock) % 256] + host[lock..k]) && dns[m..] == was[m..]
    {
      ghost var done := dns[..m];
      dns[m] := host[k];
      assert dns[..m] == done && dns[..m + 1] == done + [host[k]];
      OneMore(was[..n], [(i - lock) % 256], host, lock, k);
      m, k := m + 1, k + 1;
    }
    assert ([(i - lock) % 256] + host[lock..i])[..m - n] == [(i - lock) % 256] + host[lock..k];
  }

  /** A dotted name stays within the buffer exactly if the buffer is at least two bytes
      longer than the name. The caller's buffer has 256 bytes. */
  lemma NameFitsIff(labels: seq<Label>, dnslen: nat)
    requires labels != [] && Plain(labels) && Dotless(labels)
    ensures |Fitting(Join(labels) + [DOT], dnslen)| < dnslen <==> |Join(labels)| + 2 <= dnslen
  {
    WireIs(labels);
    WireNonZero(labels);
    DotsJoin(labels);
    DotsLength(labels);
    assert |ToWire(Join(labels) + [DOT])| == |Encode(Join(labels) + [DOT], 0, 0)| + 1;
    hide Wire, Dots, Join, Encode;
  }

  /** A dotted name on the wire: "ab.c." */
  lemma WireExample()
    ensures ToWire([97, 98, 46, 99, 46]) == [2, 97, 98, 1, 99, 0]
  {
    var host: seq<byte> := [97, 98, 46, 99, 46];
    hide Encode;
    EncodeEnd(host, 5);
    EncodeStep(host, 3, 4);
    EncodeStep(host, 3, 3);
    EncodeStep(host, 0, 2);
    EncodeStep(host, 0, 1);
    EncodeStep(host, 0, 0);
    assert host[3..4] == [99] && host[0..2] == [97, 98];
  }

  /** A compression pointer is a length byte from 192 on; the six bits left and the next byte are the
      offset of the rest of the name. */
  lemma PointerExample(buf: seq<byte>, r: nat, hi: byte, lo: byte)
    requires hi < 1 && r + 1 < |buf| && buf[r] == 192 + hi && buf[r + 1] == lo
    ensures Parse(buf, r, 1) == Parse(buf, hi * 256 + lo, 0)
    ensures Extent(buf, r) == 2
  {
  }
}
