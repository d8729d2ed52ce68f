// The base32 codec of the two-factor secret (src/api/2fa.c:95-207), section 6 of RFC 4648
// without padding. Bytes and five-bit values are numbers, read most significant bit first.
module Base32 {
  import opened Records
  import opened Alloc

  // ---- Bits of a number ----

  function Pow2(n: nat): (p: nat)
    ensures p > 0
  {
    if n == 0 then 1 else 2 * Pow2(n - 1)
  }

  // (x >> k) & 1
  function Get(x: nat, k: nat): bool {
    if k == 0 then x % 2 == 1 else Get(x / 2, k - 1)
  }

  // x | b << k
  function Or(x: nat, k: nat, b: bool): nat {
    if k == 0 then (if b && x % 2 == 0 then x + 1 else x)
    else 2 * Or(x / 2, k - 1, b) + x % 2
  }

  lemma {:induction false} OrBits(x: nat, k: nat, b: bool, j: nat)
    ensures Get(Or(x, k, b), j) == (Get(x, j) || (j == k && b))
    decreases k + j
  {
    if k == 0 {
      HalfOfNext(x);
    } else {
      var y := Or(x / 2, k - 1, b);
      Half(y, x % 2);
      if j > 0 {
        OrBits(x / 2, k - 1, b, j - 1);
      }
    }
  }

  lemma Half(y: nat, r: nat)
    requires r < 2
    ensures (2 * y + r) / 2 == y && (2 * y + r) % 2 == r
  {
  }

  lemma HalfOfNext(x: nat)
    ensures x % 2 == 0 ==> (x + 1) / 2 == x / 2 && (x + 1) % 2 == 1
  {
  }

  lemma {:induction false} OrBound(x: nat, k: nat, b: bool, n: nat)
    requires x < Pow2(n) && k < n
    ensures Or(x, k, b) < Pow2(n)
    decreases n
  {
    if k > 0 {
      OrBound(x / 2, k - 1, b, n - 1);
    }
  }

  lemma {:induction false} ZeroBits(k: nat)
    ensures !Get(0, k)
  {
    if k > 0 {
      ZeroBits(k - 1);
    }
  }

  /** A number is its bits. */
  lemma {:induction false} SameBits(x: nat, y: nat, n: nat)
    requires x < Pow2(n) && y < Pow2(n) && forall k :: 0 <= k < n ==> Get(x, k) == Get(y, k)
    ensures x == y
    decreases n
  {
    if n > 0 {
      forall k | 0 <= k < n - 1
        ensures Get(x / 2, k) == Get(y / 2, k)
      {
        assert Get(x, k + 1) == Get(y, k + 1);
      }
      SameBits(x / 2, y / 2, n - 1);
      assert Get(x, 0) == Get(y, 0);
    }
  }

  // ---- Words of w bits ----

  // Bit p of a string of w-bit words
  function BitAt(words: seq<nat>, w: nat, p: nat): bool
    requires w > 0 && p / w < |words|
  {
    Get(words[p / w], w - 1 - p % w)
  }

  ghost predicate Words(words: seq<nat>, w: nat) {
    forall i :: 0 <= i < |words| ==> words[i] < Pow2(w)
  }

  // Bit p of the string, zero behind its end
  function Bit(words: seq<nat>, w: nat, p: nat): bool
    requires w > 0
  {
    p / w < |words| && BitAt(words, w, p)
  }

  lemma DivMod(w: nat, i: nat, r: nat)
    requires r < w
    ensures (i * w + r) / w == i && (i * w + r) % w == r
  {
    var q, m := (i * w + r) / w, (i * w + r) % w;
    assert i * w + r == w * q + m;
    assert w * (i + 1) == i * w + w && w * (q + 1) == w * q + w && i * w == w * i;
    MulCompare(w, i, q + 1);
    MulCompare(w, q, i + 1);
    assert i == q;
  }

  // ---- The same bits in words of another size ----

  // The number made of n bits of a string
  function Number(a: seq<nat>, v: nat, start: nat, n: nat): (x: nat)
    requires v > 0
    ensures x < Pow2(n)
  {
    if n == 0 then 0 else 2 * Number(a, v, start, n - 1) + if Bit(a, v, start + n - 1) then 1 else 0
  }

  /** n words of w bits that hold the string a of v-bit words */
  function Repack(a: seq<nat>, v: nat, w: nat, n: nat): (r: seq<nat>)
    requires v > 0 && w > 0
    ensures |r| == n
  {
    seq(n, (i: nat) => Word(a, v, w, i))
  }

  function Word(a: seq<nat>, v: nat, w: nat, i: nat): (x: nat)
    requires v > 0
    ensures x < Pow2(w)
  {
    Product(i, w);
    Number(a, v, i * w, w)
  }

  lemma Product(i: nat, w: nat)
    ensures i * w >= 0
  {
  }

  lemma {:induction false} NumberBits(a: seq<nat>, v: nat, start: nat, n: nat, k: nat)
    requires v > 0 && k < n
    ensures Get(Number(a, v, start, n), k) == Bit(a, v, start + n - 1 - k)
    decreases n
  {
    var x := Number(a, v, start, n);
    if k > 0 {
      NumberBits(a, v, start, n - 1, k - 1);
      assert x / 2 == Number(a, v, start, n - 1);
    }
  }

  /** Repacking keeps every bit. */
  lemma RepackBits(a: seq<nat>, v: nat, w: nat, n: nat, p: nat)
    requires v > 0 && w > 0 && p / w < n
    ensures Bit(Repack(a, v, w, n), w, p) == Bit(a, v, p)
  {
    var i, r := Position(w, p);
    NumberBits(a, v, i * w, w, w - 1 - r);
    hide Number, Get;
    assert Repack(a, v, w, n)[i] == Number(a, v, i * w, w);
  }

  lemma Position(w: nat, p: nat) returns (i: nat, r: nat)
    requires w > 0
    ensures p == i * w + r && r < w && i == p / w && r == p % w
  {
    i, r := p / w, p % w;
  }

  /** Words that hold the bits of a are its repacking. */
  lemma RepackUnique(a: seq<nat>, v: nat, b: seq<nat>, w: nat)
    requires v > 0 && w > 0 && Words(b, w)
    requires forall p: nat :: p / w < |b| ==> BitAt(b, w, p) == Bit(a, v, p)
    ensures b == Repack(a, v, w, |b|)
  {
    var c := Repack(a, v, w, |b|);
    forall i | 0 <= i < |b|
      ensures b[i] == c[i]
    {
      forall k | 0 <= k < w
        ensures Get(b[i], k) == Get(c[i], k)
      {
        var r := w - 1 - k;
        DivMod(w, i, r);
        assert BitAt(b, w, i * w + r) == Bit(a, v, i * w + r);
        NumberBits(a, v, i * w, w, k);
      }
      SameBits(b[i], c[i], w);
    }
  }

  /** Repacking and back is the identity when the sizes divide. */
  lemma RepackTwice(a: seq<nat>, v: nat, w: nat, n: nat)
    requires v > 0 && w > 0 && Words(a, v) && |a| * v == n * w
    ensures Repack(Repack(a, v, w, n), w, v, |a|) == a
  {
    var b := Repack(a, v, w, n);
    forall p: nat | p / v < |a|
      ensures BitAt(a, v, p) == Bit(b, w, p)
    {
      InRange(v, |a|, p);
      InRange(w, n, p);
      RepackBits(a, v, w, n, p);
    }
    RepackUnique(b, w, a, v);
  }

  // Position p lies in the first n words of w bits
  lemma InRange(w: nat, n: nat, p: nat)
    requires w > 0
    ensures p / w < n <==> p < n * w
  {
    var q, m := p / w, p % w;
    assert p == w * q + m && n * w == w * n;
    assert w * (q + 1) == w * q + w;
    MulCompare(w, q + 1, n);
    MulCompare(w, n, q);
  }

  // ---- The alphabet ----

  const B32 := "ABCDEFGHIJKLMNOPQRSTUVWXYZ234567"

  function Upper(c: char): char {
    if 'a' <= c <= 'z' then (c as int - 32) as char else c
  }

  function CharOf(v: nat): char
    requires v < 32
  {
    B32[v]
  }

  // strchr() in the alphabet
  function ValueOf(c: char): (r: Option<nat>)
    ensures r.Some? ==> r.value < 32
  {
    if 'A' <= c <= 'Z' then Some(c as int - 'A' as int)
    else if '2' <= c <= '7' then Some(c as int - '2' as int + 26)
    else None
  }

  lemma CharValue(v: nat)
    requires v < 32
    ensures ValueOf(CharOf(v)) == Some(v) && Upper(CharOf(v)) == CharOf(v)
  {
  }

  lemma ValueChar(c: char)
    requires ValueOf(c).Some?
    ensures CharOf(ValueOf(c).value) == c
  {
  }

  // ---- The codec ----

  function Chars(v: seq<nat>): (s: string)
    requires forall i :: 0 <= i < |v| ==> v[i] < 32
    ensures |s| == |v|
  {
    seq(|v|, i requires 0 <= i < |v| => CharOf(v[i]))
  }

  predicate Valid(s: string) {
    forall i :: 0 <= i < |s| ==> ValueOf(Upper(s[i])).Some?
  }

  function Values(s: string): (v: seq<nat>)
    requires Valid(s)
    ensures |v| == |s| && forall i :: 0 <= i < |v| ==> v[i] < 32
  {
    seq(|s|, i requires 0 <= i < |s| => ValueOf(Upper(s[i])).value)
  }

  lemma RepackFives(x: seq<nat>, n: nat)
    ensures forall i :: 0 <= i < n ==> Repack(x, 8, 5, n)[i] < 32
  {
    assert Pow2(5) == 32;
    hide Pow2;
  }

  /** encode_uint8_t_array_to_base32() */
  function EncodeB32(x: seq<nat>, room: nat): (r: Option<string>) {
    if |x| == 0 || |x| > room * 5 / 8 || |x| % 5 != 0 then None
    else
      RepackFives(x, |x| / 5 * 8);
      Some(Chars(Repack(x, 8, 5, |x| / 5 * 8)))
  }

  /** decode_base32_to_uint8_array() */
  function DecodeB32(s: string, n: nat): (r: Option<seq<nat>>) {
    if n == 0 || n * 8 / 5 < |s| || n * 8 % 5 != 0 then None
    else if !Valid(s) then None
    else Some(Repack(Values(s), 5, 8, n))
  }

  lemma CharsValues(v: seq<nat>)
    requires forall i :: 0 <= i < |v| ==> v[i] < 32
    ensures Valid(Chars(v)) && Values(Chars(v)) == v
  {
    forall i | 0 <= i < |v|
      ensures ValueOf(Upper(Chars(v)[i])) == Some(v[i])
    {
      CharValue(v[i]);
    }
  }

  function Uppercase(s: string): (r: string)
    ensures |r| == |s|
  {
    seq(|s|, i requires 0 <= i < |s| => Upper(s[i]))
  }

  lemma ValuesChars(s: string)
    requires Valid(s)
    ensures Chars(Values(s)) == Uppercase(s)
  {
    forall i | 0 <= i < |s|
      ensures Chars(Values(s))[i] == Upper(s[i])
    {
      ValueChar(Upper(s[i]));
    }
  }

  /** Decoding what was encoded gives it back, for byte strings of every positive length
      divisible by five. */
  lemma DecodeEncode(x: seq<nat>, room: nat)
    requires Words(x, 8) && |x| > 0 && |x| % 5 == 0 && |x| <= room * 5 / 8
    ensures EncodeB32(x, room).Some? && DecodeB32(EncodeB32(x, room).value, |x|) == Some(x)
  {
    var n := |x| / 5 * 8;
    var v := Repack(x, 8, 5, n);
    RepackFives(x, n);
    CharsValues(v);
    assert |x| * 8 == n * 5;
    assert n <= |x| * 8 / 5 && |x| * 8 % 5 == 0;
    hide Repack, Words, Chars, Values, Valid;
    RepackTwice(x, 8, 5, n);
  }

  /** Encoding what was decoded gives the upper-case form, for strings of the full length
      over the alphabet. */
  lemma EncodeDecode(s: string, n: nat, room: nat)
    requires Valid(s) && n > 0 && n % 5 == 0 && |s| == n / 5 * 8 && n <= room * 5 / 8
    ensures DecodeB32(s, n).Some? && EncodeB32(DecodeB32(s, n).value, room) == Some(Uppercase(s))
  {
    var v := Values(s);
    assert Pow2(5) == 32;
    hide Pow2, Repack;
    assert Words(v, 5);
    assert n * 8 == |s| * 5;
    RepackTwice(v, 5, 8, n);
    ValuesChars(s);
  }

  // ---- The loops ----

  // The first j bits of the v-bit word x have been added from position `start` on
  ghost predicate Carries(out: seq<nat>, was: seq<nat>, w: nat, x: nat, v: nat, start: nat, j: nat)
    requires w > 0 && j <= v
  {
    && |out| == |was| && Words(out, w)
    && forall p: nat :: p / w < |out| ==>
         BitAt(out, w, p) == (BitAt(was, w, p) || (start <= p < start + j && Get(x, v - 1 - (p - start))))
  }

  lemma CarriesNone(was: seq<nat>, w: nat, x: nat, v: nat, start: nat)
    requires w > 0 && Words(was, w)
    ensures Carries(was, was, w, x, v, start, 0)
  {
  }

  lemma CarriesMore(out: seq<nat>, was: seq<nat>, w: nat, x: nat, v: nat, start: nat, j: nat)
    requires w > 0 && j < v && Carries(out, was, w, x, v, start, j) && (start + j) / w < |out|
    ensures var q, b := start + j, Get(x, v - 1 - j);
            Carries(out[q / w := Or(out[q / w], w - 1 - q % w, b)], was, w, x, v, start, j + 1)
  {
    OneBit(out, w, start + j, Get(x, v - 1 - j));
    hide Words, Get, Or, BitAt;
  }

  // The first q bits fit into n words of w bits
  predicate Within(q: nat, n: nat, w: nat) {
    q <= n * w
  }

  lemma WithinNext(q: nat, n: nat, w: nat)
    requires w > 0
    ensures q / w < n <==> Within(q + 1, n, w)
  {
    InRange(w, n, q);
  }

  lemma WithinLess(q: nat, r: nat, n: nat, w: nat)
    requires q <= r
    ensures Within(r, n, w) ==> Within(q, n, w)
  {
  }

  // The v bits of x go to the positions from `start` on, unless they do not fit
  method Spread(out: array<nat>, w: nat, x: nat, v: nat, start: nat) returns (ok: bool)
    requires w > 0 && v > 0 && Words(out[..], w)
    modifies out
    ensures ok <==> Within(start + v, out.Length, w)
    ensures ok ==> Carries(out[..], old(out[..]), w, x, v, start, v)
  {
    hide *;
    ghost var was := out[..];
    CarriesNone(was, w, x, v, start);
    var j: nat := 0;
    while j < v
      invariant j <= v && (j > 0 ==> Within(start + j, out.Length, w))
      invariant Carries(out[..], was, w, x, v, start, j)
    {
      WithinNext(start + j, out.Length, w);
      WithinLess(start + j + 1, start + v, out.Length, w);
      var pos := (start + j) / w;
      if pos >= out.Length {
        return false;
      }
      CarriesMore(out[..], was, w, x, v, start, j);
      ghost var mid := out[..];
      out[pos] := Or(out[pos], w - 1 - (start + j) % w, Get(x, v - 1 - j));
      assert out[..] == mid[pos := out[pos]];
      j := j + 1;
    }
    return true;
  }

  lemma SamePosition(w: nat, p: nat, q: nat)
    requires w > 0 && p / w == q / w && p % w == q % w
    ensures p == q
  {
    assert p == w * (p / w) + p % w && q == w * (q / w) + q % w;
  }

  // Setting the bit of position q changes no other position
  lemma OneBit(a: seq<nat>, w: nat, q: nat, b: bool)
    requires w > 0 && q / w < |a| && Words(a, w)
    ensures var r := a[q / w := Or(a[q / w], w - 1 - q % w, b)];
            && Words(r, w)
            && forall p: nat :: p / w < |a| ==> BitAt(r, w, p) == (BitAt(a, w, p) || (p == q && b))
  {
    var i, k := q / w, w - 1 - q % w;
    var r := a[i := Or(a[i], k, b)];
    OrBound(a[i], k, b, w);
    hide Or, Get, Pow2;
    forall p: nat | p / w < |a|
      ensures BitAt(r, w, p) == (BitAt(a, w, p) || (p == q && b))
    {
      OneBitAt(a, w, q, b, p);
    }
  }

  lemma OneBitAt(a: seq<nat>, w: nat, q: nat, b: bool, p: nat)
    requires w > 0 && q / w < |a| && p / w < |a|
    ensures BitAt(a[q / w := Or(a[q / w], w - 1 - q % w, b)], w, p) == (BitAt(a, w, p) || (p == q && b))
  {
    var i, k, l := q / w, w - 1 - q % w, w - 1 - p % w;
    hide Or, Get;
    if p / w == i {
      OrBits(a[i], k, b, l);
      if l == k {
        SamePosition(w, p, q);
      }
    }
  }

  // The first n bits of the five-bit words are those of the bytes, all others are zero
  ghost predicate Filled(out: seq<nat>, w: nat, a: seq<nat>, v: nat, n: nat)
    requires w > 0 && v > 0
  {
    Words(out, w) && forall p: nat :: p / w < |out| ==> BitAt(out, w, p) == (p < n && Bit(a, v, p))
  }

  lemma NothingFilled(out: seq<nat>, w: nat, a: seq<nat>, v: nat)
    requires w > 0 && v > 0 && forall i :: 0 <= i < |out| ==> out[i] == 0
    ensures Filled(out, w, a, v, 0)
  {
    forall p: nat | p / w < |out|
      ensures !BitAt(out, w, p)
    {
      ZeroBits(w - 1 - p % w);
    }
  }

  // After word i of a has been spread
  lemma FilledMore(was: seq<nat>, out: seq<nat>, w: nat, a: seq<nat>, v: nat, i: nat, start: nat)
    requires w > 0 && v > 0 && i < |a| && start == i * v && Filled(was, w, a, v, start)
    requires Carries(out, was, w, a[i], v, start, v)
    ensures Filled(out, w, a, v, start + v)
  {
    hide Words, Get;
    forall p: nat | p / w < |out|
      ensures BitAt(out, w, p) == (p < start + v && Bit(a, v, p))
    {
      if start <= p < start + v {
        BitOfWord(a, v, i, p, start);
      }
      hide Bit;
      assert BitAt(was, w, p) == (p < start && Bit(a, v, p));
    }
  }

  lemma BitOfWord(a: seq<nat>, v: nat, i: nat, p: nat, start: nat)
    requires v > 0 && i < |a| && start == i * v && start <= p < start + v
    ensures Bit(a, v, p) == Get(a[i], v - 1 - (p - start))
  {
    DivMod(v, i, p - start);
  }

  // A full buffer, cut to n words, is the repacking
  lemma FilledAll(out: seq<nat>, w: nat, a: seq<nat>, v: nat, n: nat)
    requires w > 0 && v > 0 && Filled(out, w, a, v, |a| * v) && n <= |out|
    ensures out[..n] == Repack(a, v, w, n)
  {
    forall p: nat | p / w < n
      ensures BitAt(out[..n], w, p) == Bit(a, v, p)
    {
      InRange(v, |a|, p);
      assert BitAt(out, w, p) == (p < |a| * v && Bit(a, v, p));
    }
    RepackUnique(a, v, out[..n], w);
  }

  /** encode_uint8_t_array_to_base32(), bit by bit into a zeroed buffer */
  method Encode(x: seq<nat>, room: nat) returns (r: Option<string>)
    ensures r == EncodeB32(x, room)
  {
    if |x| == 0 || |x| > room * 5 / 8 || |x| % 5 != 0 {
      return None;
    }
    var out := new nat[room](i => 0);
    NothingFilled(out[..], 5, x, 8);
    var n := |x| / 5 * 8;
    hide Filled, Words, Carries, Repack, CharOf, Chars;
    for i := 0 to |x|
      invariant Filled(out[..], 5, x, 8, i * 8)
    {
      ghost var was := out[..];
      FilledWords(was, 5, x, 8, i * 8);
      var ok := Spread(out, 5, x[i], 8, i * 8);
      assert ok;
      FilledMore(was, out[..], 5, x, 8, i, i * 8);
    }
    FilledAll(out[..], 5, x, 8, n);
    RepackFives(x, n);
    var s := Spelled(out[..n]);
    return Some(s);
  }

  // Every value is replaced by its letter
  method Spelled(v: seq<nat>) returns (s: string)
    requires forall i :: 0 <= i < |v| ==> v[i] < 32
    ensures s == Chars(v)
  {
    hide CharOf;
    s := [];
    for i := 0 to |v|
      invariant s == Chars(v)[..i]
    {
      s := s + [CharOf(v[i])];
    }
    assert Chars(v)[..|v|] == Chars(v);
  }

  lemma FilledWords(out: seq<nat>, w: nat, a: seq<nat>, v: nat, n: nat)
    requires w > 0 && v > 0 && Filled(out, w, a, v, n)
    ensures Words(out, w)
  {
  }

  // The bits of a longer string agree where the shorter one reaches
  lemma FilledLonger(out: seq<nat>, w: nat, a: seq<nat>, x: nat, v: nat)
    requires w > 0 && v > 0 && Filled(out, w, a, v, |a| * v)
    ensures Filled(out, w, a + [x], v, |a| * v)
  {
    forall p: nat | p / w < |out|
      ensures BitAt(out, w, p) == (p < |a| * v && Bit(a + [x], v, p))
    {
      InRange(v, |a|, p);
      assert BitAt(out, w, p) == (p < |a| * v && Bit(a, v, p));
    }
  }

  /** decode_base32_to_uint8_array(), bit by bit into a zeroed buffer */
  method Decode(s: string, n: nat) returns (r: Option<seq<nat>>)
    ensures r == DecodeB32(s, n)
  {
    if n == 0 || n * 8 / 5 < |s| || n * 8 % 5 != 0 {
      return None;
    }
    var out := new nat[n](i => 0);
    NothingFilled(out[..], 8, [], 5);
    ghost var v: seq<nat> := [];
    hide Filled, Words, Carries, Repack, ValueOf, Upper;
    for i := 0 to |s|
      invariant |v| == i && Valid(s[..i]) && v == Values(s[..i])
      invariant Filled(out[..], 8, v, 5, i * 5)
    {
      var value := ValueOf(Upper(s[i]));
      if value.None? {
        return None;
      }
      ghost var was := out[..];
      FilledLonger(was, 8, v, value.value, 5);
      v := v + [value.value];
      FilledWords(was, 8, v, 5, i * 5);
      var ok := Spread(out, 8, value.value, 5, i * 5);
      assert ok;
      FilledMore(was, out[..], 8, v, 5, i, i * 5);
    }
    assert s[..|s|] == s;
    FilledAll(out[..], 8, v, 5, n);
    assert out[..][..n] == out[..];
    return Some(out[..]);
  }

  // ---- An example ----

  lemma {:induction false} NoBits(a: seq<nat>, p: nat, n: nat)
    requires forall q: nat :: p <= q < p + n ==> !Bit(a, 8, q)
    ensures Number(a, 8, p, n) == 0
  {
    if n > 0 {
      NoBits(a, p, n - 1);
    }
  }

  // The bits of 128 and four zeros: only the first one is set
  lemma FirstBit(q: nat)
    ensures Bit([128, 0, 0, 0, 0], 8, q) <==> q == 0
  {
    var x := [128, 0, 0, 0, 0];
    if q < 8 {
      TopBit(7 - q);
    } else if q / 8 < 5 {
      ZeroBits(7 - q % 8);
    }
  }

  lemma TopBit(k: nat)
    requires k <= 7
    ensures Get(128, k) <==> k == 7
  {
    assert Get(128, 7) && !Get(128, 6) && !Get(128, 5) && !Get(128, 4);
    assert !Get(128, 3) && !Get(128, 2) && !Get(128, 1) && !Get(128, 0);
  }

  /** The most significant bit of the first byte is that of the first letter. */
  lemma EncodeExample()
    ensures EncodeB32([128, 0, 0, 0, 0], 8) == Some("QAAAAAAA")
  {
    var x := [128, 0, 0, 0, 0];
    forall q: nat {
      FirstBit(q);
    }
    hide Bit;
    assert Word(x, 8, 5, 0) == 16 by {
      assert Number(x, 8, 0, 1) == 1;
      assert Number(x, 8, 0, 2) == 2 && Number(x, 8, 0, 3) == 4 && Number(x, 8, 0, 4) == 8;
    }
    forall i: nat | 0 < i < 8
      ensures Word(x, 8, 5, i) == 0
    {
      NoBits(x, i * 5, 5);
    }
    hide Word;
    assert Repack(x, 8, 5, 8) == [16, 0, 0, 0, 0, 0, 0, 0];
    Alphabet(16);
    Alphabet(0);
    hide CharOf, Repack;
    assert Chars([16, 0, 0, 0, 0, 0, 0, 0]) == "QAAAAAAA";
  }

  /** A to Z stand for 0 to 25 and 2 to 7 for 26 to 31. */
  lemma Alphabet(v: nat)
    requires v < 32
    ensures CharOf(v) == if v < 26 then 'A' + v as char else '2' + (v - 26) as char
  {
  }
}
