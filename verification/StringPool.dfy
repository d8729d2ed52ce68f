// The shared, append-only string pool and its deduplication through one index per
// process (src/shmem.c:239-340, src/shmem.c:412-516). The hash function h is arbitrary.
module StringPool {
  import opened Records
  import opened ProbeTable

  const NUL := '\0'

  datatype Pool = Pool(bytes: seq<char>, next: nat)

  // A string as it was stored: where, the text in the pool, and the whole string
  datatype Stored = Stored(pos: nat, text: string, whole: string)

  // It had to be shortened
  predicate Cut(x: Stored) {
    x.text != x.whole
  }

  predicate CString(s: string) {
    NUL !in s
  }

  // ---- Reading ----

  // The C string that starts at pos
  function Text(bytes: seq<char>, pos: nat): (s: string)
    decreases |bytes| - pos
  {
    if pos >= |bytes| || bytes[pos] == NUL then [] else [bytes[pos]] + Text(bytes, pos + 1)
  }

  /** _getstr() */
  function GetStr(p: Pool, pos: nat): string {
    if pos < p.next then Text(p.bytes, pos) else ""
  }

  lemma {:induction false} TextIs(bytes: seq<char>, pos: nat, s: string)
    requires CString(s) && Matches(bytes, pos, s + [NUL])
    ensures Text(bytes, pos) == s
    decreases |s|
  {
    var m := s + [NUL];
    assert bytes[pos] == bytes[pos..pos + |m|][0] == m[0];
    if s != [] {
      assert bytes[pos + 1..pos + 1 + |s|] == bytes[pos..pos + |m|][1..] == m[1..] == s[1..] + [NUL];
      TextIs(bytes, pos + 1, s[1..]);
    }
  }

  // ---- What the pool holds ----

  ghost function End(log: seq<Stored>): nat {
    if log == [] then 1 else log[|log| - 1].pos + |log[|log| - 1].text| + 1
  }

  /** Position 0 holds the empty string; behind it the stored strings follow each other
      without gaps up to `next`. */
  ghost predicate Laid(p: Pool, log: seq<Stored>) {
    && 1 <= p.next <= |p.bytes| && p.bytes[0] == NUL
    && p.next == End(log)
    && (forall k :: 0 <= k < |log| ==> log[k].pos == End(log[..k]))
    && (forall k :: 0 <= k < |log| ==> CString(log[k].text) && Matches(p.bytes, log[k].pos, log[k].text + [NUL]))
  }

  lemma {:induction false} EndsGrow(p: Pool, log: seq<Stored>, j: nat, k: nat)
    requires Laid(p, log) && j <= k <= |log|
    ensures 1 <= End(log[..j]) <= End(log[..k]) <= p.next
    ensures j < k ==> End(log[..j]) < End(log[..k])
    decreases |log| - j
  {
    assert log[..|log|] == log;
    if j < |log| {
      assert End(log[..j + 1]) == log[j].pos + |log[j].text| + 1;
      EndsGrow(p, log, j + 1, if j < k then k else j + 1);
    }
    EndPositive(p, log, j);
  }

  lemma {:induction false} EndPositive(p: Pool, log: seq<Stored>, j: nat)
    requires Laid(p, log) && j <= |log|
    ensures 1 <= End(log[..j])
  {
    if j > 0 {
      EndPositive(p, log, j - 1);
    }
  }

  /** A stored string reads back. */
  lemma StoredReads(p: Pool, log: seq<Stored>, k: nat)
    requires Laid(p, log) && k < |log|
    ensures GetStr(p, log[k].pos) == log[k].text && log[k].pos < p.next
  {
    TextIs(p.bytes, log[k].pos, log[k].text);
    EndsGrow(p, log, k, k + 1);
    assert log[..k + 1][..k] == log[..k];
    EndsGrow(p, log, k, |log|);
    assert log[..|log|] == log;
  }

  // ---- What a process knows ----

  // Indexed as a process finds it that walks the pool: by the text that is there. An empty
  // text is passed over, and hash 0 leaves no entry.
  ghost predicate AsWalked(t: seq<Entry>, x: Stored, h: string -> nat) {
    x.text != [] && h(x.text) != 0 ==> Entry(h(x.text), x.pos) in Content(t)
  }

  // Indexed as by the process that stored it: by the whole string
  ghost predicate AsStored(t: seq<Entry>, x: Stored, h: string -> nat) {
    h(x.whole) != 0 ==> Entry(h(x.whole), x.pos) in Content(t)
  }

  /** The table holds exactly the strings stored before `upto`, each under the hash of its
      text or of the whole string. The two differ only for a string that was shortened. */
  ghost predicate Knows(t: seq<Entry>, log: seq<Stored>, upto: nat, h: string -> nat) {
    && (forall e :: e in Content(t) ==>
          exists k :: 0 <= k < |log| && log[k].pos == e.offset < upto && (e.hash == h(log[k].text) || e.hash == h(log[k].whole)))
    && (forall k :: 0 <= k < |log| && log[k].pos < upto ==> AsWalked(t, log[k], h) || AsStored(t, log[k], h))
  }

  // The first m stored strings are known; m == 0 is also the state before the first sync
  ghost predicate ProcessOk(p: Pool, log: seq<Stored>, ix: Index, m: nat, h: string -> nat) {
    && m <= |log| && ProbeTable.Valid(ix)
    && (ix.synced == End(log[..m]) || (ix.synced == 0 && m == 0))
    && Knows(ix.table, log, End(log[..m]), h)
  }

  // ---- Catching up ----

  // The walk of str_hash_sync() from position pos
  function Walk(p: Pool, ix: Index, pos: nat, h: string -> nat): (r: Index)
    decreases p.next - pos
  {
    if pos >= p.next then ix
    else
      var s := Text(p.bytes, pos);
      Walk(p, if s != [] then Insert(ix, h(s), pos) else ix, pos + |s| + 1, h)
  }

  /** str_hash_sync() */
  function Sync(p: Pool, ix: Index, h: string -> nat): (r: Index) {
    Walk(p, ix, if ix.synced == 0 && p.next > 0 then 1 else ix.synced, h).(synced := p.next)
  }

  lemma KnowsOne(p: Pool, log: seq<Stored>, t: seq<Entry>, u: seq<Entry>, m: nat, hash: nat, h: string -> nat)
    requires Laid(p, log) && m < |log| && Knows(t, log, End(log[..m]), h)
    requires Content(u) == Content(t) + if hash != 0 then {Entry(hash, log[m].pos)} else {}
    requires hash == h(log[m].text) || hash == h(log[m].whole) || (hash == 0 && log[m].text == [])
    ensures Knows(u, log, End(log[..m + 1]), h)
  {
    PosOrder(p, log, m, m);
    forall k | 0 <= k < |log|
      ensures log[k].pos < End(log[..m + 1]) ==> k == m || log[k].pos < End(log[..m])
    {
      PosOrder(p, log, k, m);
    }
    hide Content, Laid, End;
    forall e | e in Content(u)
      ensures exists k :: 0 <= k < |log| && log[k].pos == e.offset < End(log[..m + 1]) && (e.hash == h(log[k].text) || e.hash == h(log[k].whole))
    {
      if e in Content(t) {
        var k :| 0 <= k < |log| && log[k].pos == e.offset < End(log[..m]) && (e.hash == h(log[k].text) || e.hash == h(log[k].whole));
      } else {
        assert log[m].pos == e.offset;
      }
    }
  }

  // Positions follow the order of storing
  lemma PosOrder(p: Pool, log: seq<Stored>, k: nat, m: nat)
    requires Laid(p, log) && k < |log| && m < |log|
    ensures End(log[..m]) == log[m].pos < End(log[..m + 1])
    ensures log[k].pos < End(log[..m + 1]) ==> k <= m
    ensures k < m ==> log[k].pos < End(log[..m])
  {
    EndsGrow(p, log, m, m + 1);
    if k > m {
      EndsGrow(p, log, m + 1, k);
    } else if k < m {
      EndsGrow(p, log, k, m);
    }
  }

  // An empty stored string, which only shortening leaves behind, is not indexed
  lemma KnowsSkip(p: Pool, log: seq<Stored>, t: seq<Entry>, m: nat, h: string -> nat)
    requires Laid(p, log) && m < |log| && Knows(t, log, End(log[..m]), h) && log[m].text == []
    ensures Knows(t, log, End(log[..m + 1]), h)
  {
    KnowsOne(p, log, t, t, m, 0, h);
  }

  lemma {:induction false} WalkKeeps(p: Pool, log: seq<Stored>, ix: Index, m: nat, h: string -> nat)
    requires Laid(p, log) && m <= |log| && ProbeTable.Valid(ix) && Knows(ix.table, log, End(log[..m]), h)
    ensures var r := Walk(p, ix, End(log[..m]), h); ProbeTable.Valid(r) && Knows(r.table, log, p.next, h)
    decreases |log| - m
  {
    if m == |log| {
      assert log[..m] == log;
      hide Knows, ProbeTable.Valid;
    } else {
      var s := log[m].text;
      WalkStep(p, log, ix, m, h);
      hide Laid, Knows, ProbeTable.Valid, Content, Walk, Insert, End;
      if s != [] {
        InsertKeeps(ix, h(s), log[m].pos);
        var r := Insert(ix, h(s), log[m].pos);
        KnowsOne(p, log, ix.table, r.table, m, h(s), h);
        WalkKeeps(p, log, r, m + 1, h);
      } else {
        KnowsSkip(p, log, ix.table, m, h);
        WalkKeeps(p, log, ix, m + 1, h);
      }
    }
  }

  lemma WalkStep(p: Pool, log: seq<Stored>, ix: Index, m: nat, h: string -> nat)
    requires Laid(p, log) && m < |log|
    ensures var s := log[m].text;
            Walk(p, ix, End(log[..m]), h) == Walk(p, if s != [] then Insert(ix, h(s), log[m].pos) else ix, End(log[..m + 1]), h)
  {
    hide *;
    EndNext(log, m);
    LaidMatches(p, log, m);
    PosOrder(p, log, m, m);
    StoredReads(p, log, m);
    TextIs(p.bytes, log[m].pos, log[m].text);
    WalkTurn(p, ix, log[m].pos, h);
  }

  lemma EndNext(log: seq<Stored>, m: nat)
    requires m < |log|
    ensures End(log[..m + 1]) == log[m].pos + |log[m].text| + 1
  {
    assert log[..m + 1][m] == log[m];
  }

  lemma LaidMatches(p: Pool, log: seq<Stored>, m: nat)
    requires Laid(p, log) && m < |log|
    ensures CString(log[m].text) && Matches(p.bytes, log[m].pos, log[m].text + [NUL])
  {
    hide CString, Matches;
  }

  lemma WalkTurn(p: Pool, ix: Index, pos: nat, h: string -> nat)
    requires pos < p.next
    ensures var s := Text(p.bytes, pos);
            Walk(p, ix, pos, h) == Walk(p, if s != [] then Insert(ix, h(s), pos) else ix, pos + |s| + 1, h)
  {
    hide Insert, Text;
  }

  /** After a sync the process knows the whole pool. */
  lemma SyncKeeps(p: Pool, log: seq<Stored>, ix: Index, m: nat, h: string -> nat)
    requires Laid(p, log) && ProcessOk(p, log, ix, m, h)
    ensures ProcessOk(p, log, Sync(p, ix, h), |log|, h)
  {
    EndPositive(p, log, m);
    assert log[..|log|] == log && log[..0] == [];
    hide Walk;
    WalkKeeps(p, log, ix, m, h);
  }

  // ---- Adding a string ----

  // The number of bytes that will be stored, terminator included
  function Clamped(p: Pool, s: string, pagesize: nat): (len: nat)
    requires p.next + 2 <= |p.bytes| && pagesize >= 1
    ensures 1 <= len <= |s| + 1 && p.next + len < |p.bytes|
  {
    var len := |s| + 1;
    var paged := if len > pagesize - 1 then pagesize else len;
    if paged > |p.bytes| - p.next - 1 then |p.bytes| - p.next - 1 else paged
  }

  /** The string can be stored whole (or is the empty one, which needs no place). */
  predicate Fits(p: Pool, s: string, pagesize: nat)
    requires pagesize >= 1
  {
    s == [] || (p.next + 2 <= |p.bytes| && Clamped(p, s, pagesize) == |s| + 1)
  }

  function Written(bytes: seq<char>, pos: nat, data: string): (r: seq<char>)
    requires pos + |data| <= |bytes|
    ensures |r| == |bytes|
  {
    bytes[..pos] + data + bytes[pos + |data|..]
  }

  // The pool, the index and the position returned
  datatype Added = Added(pool: Pool, index: Index, pos: nat)

  /** _addstr() */
  function AddStr(p: Pool, ix: Index, s: string, pagesize: nat, h: string -> nat): (r: Added)
    requires p.next <= |p.bytes| && pagesize >= 1
  {
    if s == [] || p.next + 2 > |p.bytes| then Added(p, ix, 0)
    else
      var len := Clamped(p, s, pagesize);
      var known := Sync(p, ix, h);
      var found := Find(p.bytes, known, h(s), (s + [NUL])[..len]);
      if found.Some? then Added(p, known, found.value)
      else
        Added(Pool(Written(p.bytes, p.next, s[..len - 1] + [NUL]), p.next + len),
              Insert(known, h(s), p.next).(synced := p.next + len),
              p.next)
  }

  // What has been stored after _addstr(s), r being the pool it left
  ghost function LogAfter(p: Pool, log: seq<Stored>, r: Pool, s: string, pagesize: nat): seq<Stored>
    requires pagesize >= 1
  {
    if r.next == p.next || p.next + 2 > |p.bytes| then log
    else
      var len := Clamped(p, s, pagesize);
      log + [Stored(p.next, s[..len - 1], s)]
  }

  // No string that was stored whole and has a hash other than 0 is stored whole again
  ghost predicate NoneTwice(log: seq<Stored>, h: string -> nat) {
    forall j, k :: 0 <= j < k < |log| && !Cut(log[j]) && !Cut(log[k]) && log[j].text == log[k].text ==> h(log[j].text) == 0
  }

  ghost predicate EmptyIsCut(log: seq<Stored>) {
    forall k :: 0 <= k < |log| && log[k].text == [] ==> Cut(log[k])
  }

  ghost predicate PoolOk(p: Pool, log: seq<Stored>, h: string -> nat) {
    Laid(p, log) && NoneTwice(log, h) && EmptyIsCut(log)
  }

  lemma WrittenMatches(bytes: seq<char>, pos: nat, data: string)
    requires pos + |data| <= |bytes|
    ensures Matches(Written(bytes, pos, data), pos, data)
  {
  }

  lemma WrittenBehind(bytes: seq<char>, pos: nat, data: string, at: nat, needle: string)
    requires pos + |data| <= |bytes| && at + |needle| <= pos
    ensures Matches(Written(bytes, pos, data), at, needle) <==> Matches(bytes, at, needle)
  {
    assert Written(bytes, pos, data)[at..at + |needle|] == bytes[at..at + |needle|];
  }

  lemma WrittenFirst(bytes: seq<char>, pos: nat, data: string)
    requires 1 <= pos && pos + |data| <= |bytes|
    ensures Written(bytes, pos, data)[0] == bytes[0]
  {
  }

  // Writing behind the last string changes no string before it
  lemma LaidGrows(p: Pool, log: seq<Stored>, data: string, whole: string)
    requires Laid(p, log) && CString(data) && p.next + |data| + 1 <= |p.bytes|
    ensures Laid(Pool(Written(p.bytes, p.next, data + [NUL]), p.next + |data| + 1), log + [Stored(p.next, data, whole)])
  {
    var longer := log + [Stored(p.next, data, whole)];
    hide Written, Matches;
    WrittenFirst(p.bytes, p.next, data + [NUL]);
    WrittenMatches(p.bytes, p.next, data + [NUL]);
    assert longer[..|log|] == log && log[..|log|] == log;
    forall k | 0 <= k < |log|
      ensures longer[..k] == log[..k] && Matches(Written(p.bytes, p.next, data + [NUL]), log[k].pos, log[k].text + [NUL])
    {
      EndsGrow(p, log, k + 1, |log|);
      WrittenBehind(p.bytes, p.next, data + [NUL], log[k].pos, log[k].text + [NUL]);
    }
  }

  lemma KnowsStable(t: seq<Entry>, log: seq<Stored>, longer: seq<Stored>, upto: nat, h: string -> nat)
    requires Knows(t, log, upto, h) && log <= longer
    requires forall k :: |log| <= k < |longer| ==> longer[k].pos >= upto
    ensures Knows(t, longer, upto, h)
  {
    hide Content;
    forall e | e in Content(t)
      ensures exists k :: 0 <= k < |longer| && longer[k].pos == e.offset < upto && (e.hash == h(longer[k].text) || e.hash == h(longer[k].whole))
    {
      var k :| 0 <= k < |log| && log[k].pos == e.offset < upto && (e.hash == h(log[k].text) || e.hash == h(log[k].whole));
      assert longer[k] == log[k];
    }
  }

  // A process stays right when others store strings behind what it knows
  lemma ProcessStable(p: Pool, log: seq<Stored>, r: Pool, longer: seq<Stored>, ix: Index, m: nat, h: string -> nat)
    requires ProcessOk(p, log, ix, m, h) && Laid(r, longer) && log <= longer
    ensures ProcessOk(r, longer, ix, m, h)
  {
    assert longer[..m] == log[..m];
    forall k | |log| <= k < |longer|
      ensures longer[k].pos >= End(longer[..m])
    {
      EndsGrow(r, longer, m, k);
    }
    hide ProbeTable.Valid, Knows, Laid, End;
    KnowsStable(ix.table, log, longer, End(log[..m]), h);
  }

  // ---- What is found ----

  // A match of a whole string at an indexed position is that string
  lemma FoundReads(p: Pool, log: seq<Stored>, ix: Index, s: string, pos: nat, h: string -> nat)
    requires Laid(p, log) && CString(s) && Matches(p.bytes, pos, s + [NUL])
    requires Entry(h(s), pos) in Content(ix.table) && Knows(ix.table, log, p.next, h)
    ensures GetStr(p, pos) == s
  {
    TextIs(p.bytes, pos, s);
  }

  // A string that is not found was not stored whole before
  lemma AbsentIsNew(p: Pool, log: seq<Stored>, ix: Index, s: string, h: string -> nat)
    requires Laid(p, log) && ProbeTable.Valid(ix) && Knows(ix.table, log, p.next, h) && h(s) != 0 && s != []
    requires Find(p.bytes, ix, h(s), s + [NUL]).None?
    ensures forall k :: 0 <= k < |log| && !Cut(log[k]) ==> log[k].text != s
  {
    FindExact(p.bytes, ix, h(s), s + [NUL]);
    forall k | 0 <= k < |log| && !Cut(log[k])
      ensures log[k].text != s
    {
      StoredReads(p, log, k);
      assert Matches(p.bytes, log[k].pos, log[k].text + [NUL]);
    }
  }

  lemma CutNeedle(s: string, len: nat)
    requires len == |s| + 1
    ensures (s + [NUL])[..len] == s + [NUL] && s[..len - 1] == s
  {
  }

  lemma CutIff(pos: nat, s: string, len: nat)
    requires 1 <= len <= |s| + 1
    ensures Cut(Stored(pos, s[..len - 1], s)) <==> len != |s| + 1
    ensures s != [] && s[..len - 1] == [] ==> Cut(Stored(pos, s[..len - 1], s))
  {
    assert |s[..len - 1]| == len - 1;
  }

  lemma TwiceOnlyLast(log: seq<Stored>, x: Stored, h: string -> nat)
    requires NoneTwice(log, h) && EmptyIsCut(log) && (x.text == [] ==> Cut(x))
    requires !Cut(x) && h(x.text) != 0 ==> forall k :: 0 <= k < |log| && !Cut(log[k]) ==> log[k].text != x.text
    ensures NoneTwice(log + [x], h) && EmptyIsCut(log + [x])
  {
  }

  lemma NoneTwiceGrows(p: Pool, log: seq<Stored>, ix: Index, s: string, len: nat, h: string -> nat)
    requires PoolOk(p, log, h) && ProcessOk(p, log, ix, |log|, h) && s != [] && 1 <= len <= |s| + 1
    requires Find(p.bytes, ix, h(s), (s + [NUL])[..len]).None?
    ensures NoneTwice(log + [Stored(p.next, s[..len - 1], s)], h)
    ensures EmptyIsCut(log + [Stored(p.next, s[..len - 1], s)])
  {
    hide *;
    OkParts(p, log, ix, h);
    CutNeedle(s, |s| + 1);
    CutIff(p.next, s, len);
    if len == |s| + 1 && h(s) != 0 {
      AbsentIsNew(p, log, ix, s, h);
    }
    TwiceOnlyLast(log, Stored(p.next, s[..len - 1], s), h);
  }

  lemma OkParts(p: Pool, log: seq<Stored>, ix: Index, h: string -> nat)
    requires PoolOk(p, log, h) && ProcessOk(p, log, ix, |log|, h)
    ensures Laid(p, log) && NoneTwice(log, h) && EmptyIsCut(log)
    ensures ProbeTable.Valid(ix) && Knows(ix.table, log, p.next, h)
  {
    assert log[..|log|] == log;
    hide NoneTwice, EmptyIsCut, Knows, ProbeTable.Valid;
  }

  // ---- One call ----

  ghost predicate Process(p: Pool, log: seq<Stored>, ix: Index, h: string -> nat) {
    exists m :: ProcessOk(p, log, ix, m, h)
  }

  // The string is found: only the index has changed, and the position holds it
  lemma FoundKeeps(p: Pool, log: seq<Stored>, ix: Index, s: string, len: nat, h: string -> nat)
    requires PoolOk(p, log, h) && ProcessOk(p, log, ix, |log|, h) && CString(s) && 1 <= len <= |s| + 1
    requires Find(p.bytes, ix, h(s), (s + [NUL])[..len]).Some?
    ensures var pos := Find(p.bytes, ix, h(s), (s + [NUL])[..len]).value;
            pos < p.next && (len == |s| + 1 ==> GetStr(p, pos) == s)
  {
    var pos := Find(p.bytes, ix, h(s), (s + [NUL])[..len]).value;
    assert log[..|log|] == log;
    FindExact(p.bytes, ix, h(s), (s + [NUL])[..len]);
    hide Find, ProbeTable.Valid, Content;
    var k :| 0 <= k < |log| && log[k].pos == pos < p.next;
    if len == |s| + 1 {
      CutNeedle(s, len);
      FoundReads(p, log, ix, s, pos, h);
    }
  }

  lemma StoreKeeps(p: Pool, log: seq<Stored>, ix: Index, s: string, len: nat, h: string -> nat)
    requires PoolOk(p, log, h) && ProcessOk(p, log, ix, |log|, h) && CString(s) && s != []
    requires 1 <= len <= |s| + 1 && p.next + len <= |p.bytes|
    requires Find(p.bytes, ix, h(s), (s + [NUL])[..len]).None?
    ensures var r := Pool(Written(p.bytes, p.next, s[..len - 1] + [NUL]), p.next + len);
            var longer := log + [Stored(p.next, s[..len - 1], s)];
            && PoolOk(r, longer, h)
            && ProcessOk(r, longer, Insert(ix, h(s), p.next).(synced := r.next), |longer|, h)
            && GetStr(r, p.next) == s[..len - 1]
  {
    var data := s[..len - 1];
    var r := Pool(Written(p.bytes, p.next, data + [NUL]), p.next + len);
    var x := Stored(p.next, data, s);
    var longer := log + [x];
    var more := Insert(ix, h(s), p.next);
    hide *;
    OkParts(p, log, ix, h);
    StoreLays(p, log, ix, s, len, h);
    ProcessStable(p, log, r, longer, ix, |log|, h);
    InsertKeeps(ix, h(s), p.next);
    ProcessParts(r, longer, ix, |log|, h);
    KnowsOne(r, longer, ix.table, more.table, |log|, h(s), h);
    ProcessMake(r, longer, more, h);
  }

  lemma StoreLays(p: Pool, log: seq<Stored>, ix: Index, s: string, len: nat, h: string -> nat)
    requires PoolOk(p, log, h) && ProcessOk(p, log, ix, |log|, h) && CString(s) && s != []
    requires 1 <= len <= |s| + 1 && p.next + len <= |p.bytes|
    requires Find(p.bytes, ix, h(s), (s + [NUL])[..len]).None?
    ensures var r := Pool(Written(p.bytes, p.next, s[..len - 1] + [NUL]), p.next + len);
            var x := Stored(p.next, s[..len - 1], s);
            var longer := log + [x];
            && Laid(r, longer) && NoneTwice(longer, h) && EmptyIsCut(longer)
            && GetStr(r, p.next) == s[..len - 1]
  {
    var data := s[..len - 1];
    hide *;
    OkParts(p, log, ix, h);
    CutIsCString(s, len);
    CutNeedle(s, |s| + 1);
    NoneTwiceGrows(p, log, ix, s, len, h);
    LaidGrows(p, log, data, s);
    StoredReads(Pool(Written(p.bytes, p.next, data + [NUL]), p.next + len), log + [Stored(p.next, data, s)], |log|);
  }

  lemma CutIsCString(s: string, len: nat)
    requires CString(s) && 1 <= len <= |s| + 1
    ensures CString(s[..len - 1])
  {
  }

  lemma ProcessParts(p: Pool, log: seq<Stored>, ix: Index, m: nat, h: string -> nat)
    requires ProcessOk(p, log, ix, m, h)
    ensures m <= |log| && ProbeTable.Valid(ix) && Knows(ix.table, log, End(log[..m]), h)
  {
  }

  lemma ProcessMake(p: Pool, log: seq<Stored>, ix: Index, h: string -> nat)
    requires Laid(p, log) && NoneTwice(log, h) && EmptyIsCut(log)
    requires ProbeTable.Valid(ix) && Knows(ix.table, log, End(log[..|log|]), h)
    ensures PoolOk(p, log, h) && ProcessOk(p, log, ix.(synced := p.next), |log|, h)
  {
    assert log[..|log|] == log;
    SyncedValid(ix, p.next);
    hide NoneTwice, EmptyIsCut, Knows, ProbeTable.Valid;
  }

  lemma SyncedValid(ix: Index, n: nat)
    requires ProbeTable.Valid(ix)
    ensures ProbeTable.Valid(ix.(synced := n))
  {
  }

  lemma AddCases(p: Pool, ix: Index, s: string, pagesize: nat, h: string -> nat)
    requires s != [] && p.next + 2 <= |p.bytes| && pagesize >= 1
    ensures var known, len := Sync(p, ix, h), Clamped(p, s, pagesize);
            var found := Find(p.bytes, known, h(s), (s + [NUL])[..len]);
            AddStr(p, ix, s, pagesize, h) ==
              if found.Some? then Added(p, known, found.value)
              else Added(Pool(Written(p.bytes, p.next, s[..len - 1] + [NUL]), p.next + len),
                         Insert(known, h(s), p.next).(synced := p.next + len), p.next)
  {
    hide Sync, Clamped, Find, Written, Insert;
  }

  // The pool has room and the string is not empty
  lemma AddRoomKeeps(p: Pool, log: seq<Stored>, ix: Index, m: nat, s: string, pagesize: nat, h: string -> nat)
    requires PoolOk(p, log, h) && ProcessOk(p, log, ix, m, h) && CString(s) && pagesize >= 1
    requires s != [] && p.next + 2 <= |p.bytes|
    ensures var r := AddStr(p, ix, s, pagesize, h);
            var len := Clamped(p, s, pagesize);
            && (if r.pool.next == p.next
                then r.pool == p && ProcessOk(p, log, r.index, |log|, h) && r.pos < p.next
                else
                  var longer := log + [Stored(p.next, s[..len - 1], s)];
                  p.next < r.pool.next && PoolOk(r.pool, longer, h) && ProcessOk(r.pool, longer, r.index, |longer|, h) && r.pos == p.next)
            && (len == |s| + 1 ==> GetStr(r.pool, r.pos) == s)
  {
    hide *;
    var known := Sync(p, ix, h);
    var len := Clamped(p, s, pagesize);
    AddCases(p, ix, s, pagesize, h);
    PoolParts(p, log, h);
    SyncKeeps(p, log, ix, m, h);
    CutNeedle(s, |s| + 1);
    if Find(p.bytes, known, h(s), (s + [NUL])[..len]).Some? {
      FoundKeeps(p, log, known, s, len, h);
    } else {
      StoreKeeps(p, log, known, s, len, h);
    }
  }

  lemma PoolParts(p: Pool, log: seq<Stored>, h: string -> nat)
    requires PoolOk(p, log, h)
    ensures Laid(p, log) && 1 <= p.next <= |p.bytes|
  {
  }

  /** One locked call of _addstr(): the pool stays well laid out and free of duplicates,
      the caller knows what it knew and what it stored, and a string that fits reads back
      from the returned position. */
  lemma AddKeeps(p: Pool, log: seq<Stored>, ix: Index, s: string, pagesize: nat, h: string -> nat)
    requires PoolOk(p, log, h) && Process(p, log, ix, h) && CString(s) && pagesize >= 1 && p.next <= |p.bytes|
    ensures var r := AddStr(p, ix, s, pagesize, h);
            var l := LogAfter(p, log, r.pool, s, pagesize);
            && PoolOk(r.pool, l, h) && Process(r.pool, l, r.index, h) && log <= l
            && r.pos < r.pool.next
            && (Fits(p, s, pagesize) ==> GetStr(r.pool, r.pos) == s)
  {
    if s != [] && p.next + 2 <= |p.bytes| {
      hide PoolOk, ProcessOk, AddStr, Clamped;
      var m :| ProcessOk(p, log, ix, m, h);
      AddRoomKeeps(p, log, ix, m, s, pagesize, h);
    } else {
      assert Laid(p, log);
    }
  }

  // ---- Any interleaving of processes ----

  /** The pool, what was stored in it, every process's own index, and for each string
      that fitted when it was added the position its caller was given. */
  datatype System = System(pool: Pool, log: seq<Stored>, procs: seq<Index>, answers: seq<(string, nat)>)

  // A locked call, a fork outside the lock (the child gets a copy of the index), and the
  // growth of the pool by zeroed memory
  datatype Op = Add(p: nat, s: string) | Fork(p: nat) | Enlarge(n: nat)

  ghost predicate Possible(sys: System, op: Op) {
    match op
    case Add(p, s) => p < |sys.procs| && CString(s)
    case Fork(p) => p < |sys.procs|
    case Enlarge(_) => true
  }

  ghost function Step(sys: System, op: Op, pagesize: nat, h: string -> nat): System
    requires pagesize >= 1
  {
    match op
    case Add(p, s) =>
      if p >= |sys.procs| || sys.pool.next > |sys.pool.bytes| then sys
      else
        var r := AddStr(sys.pool, sys.procs[p], s, pagesize, h);
        System(r.pool, LogAfter(sys.pool, sys.log, r.pool, s, pagesize), sys.procs[p := r.index],
               if Fits(sys.pool, s, pagesize) then sys.answers + [(s, r.pos)] else sys.answers)
    case Fork(p) =>
      if p < |sys.procs| then sys.(procs := sys.procs + [sys.procs[p]]) else sys
    case Enlarge(n) =>
      sys.(pool := sys.pool.(bytes := sys.pool.bytes + seq(n, i => NUL)))
  }

  ghost function Exec(size: nat, ops: seq<Op>, pagesize: nat, h: string -> nat): System
    requires pagesize >= 1
  {
    if ops == [] then System(Pool(seq(size, i => NUL), 1), [], [Index([], 0, 0)], [])
    else Step(Exec(size, ops[..|ops| - 1], pagesize, h), ops[|ops| - 1], pagesize, h)
  }

  ghost predicate Runs(size: nat, ops: seq<Op>, pagesize: nat, h: string -> nat)
    requires pagesize >= 1
  {
    forall k :: 0 <= k < |ops| ==> Possible(Exec(size, ops[..k], pagesize, h), ops[k])
  }

  ghost predicate AllKnow(sys: System, h: string -> nat) {
    forall p :: 0 <= p < |sys.procs| ==> Process(sys.pool, sys.log, sys.procs[p], h)
  }

  ghost predicate AllRead(sys: System) {
    forall a :: 0 <= a < |sys.answers| ==>
      sys.answers[a].1 < sys.pool.next && GetStr(sys.pool, sys.answers[a].1) == sys.answers[a].0
  }

  ghost predicate SystemOk(sys: System, h: string -> nat) {
    PoolOk(sys.pool, sys.log, h) && AllKnow(sys, h) && AllRead(sys)
  }

  // ---- Shortened strings ----

  lemma {:induction false} WalkGrows(p: Pool, ix: Index, pos: nat, h: string -> nat)
    requires ProbeTable.Valid(ix)
    ensures Content(ix.table) <= Content(Walk(p, ix, pos, h).table)
    decreases p.next - pos
  {
    hide ProbeTable.Valid, Insert, Text, Content;
    if pos < p.next {
      var s := Text(p.bytes, pos);
      if s != [] {
        InsertKeeps(ix, h(s), pos);
        WalkGrows(p, Insert(ix, h(s), pos), pos + |s| + 1, h);
      } else {
        WalkGrows(p, ix, pos + |s| + 1, h);
      }
    }
  }

  // A walk from string m on indexes string k under the hash of its text
  lemma {:induction false} WalkIndexes(p: Pool, log: seq<Stored>, ix: Index, m: nat, k: nat, h: string -> nat)
    requires Laid(p, log) && m <= k < |log| && ProbeTable.Valid(ix)
    ensures AsWalked(Walk(p, ix, End(log[..m]), h).table, log[k], h)
    decreases k - m
  {
    var s := log[m].text;
    WalkStep(p, log, ix, m, h);
    hide Laid, ProbeTable.Valid, Content, Walk, Insert, End;
    var next := if s != [] then Insert(ix, h(s), log[m].pos) else ix;
    InsertKeeps(ix, h(s), log[m].pos);
    if m == k {
      WalkGrows(p, next, End(log[..m + 1]), h);
    } else {
      WalkIndexes(p, log, next, m + 1, k, h);
    }
  }

  lemma SyncIndexes(p: Pool, log: seq<Stored>, ix: Index, m: nat, k: nat, h: string -> nat)
    requires Laid(p, log) && ProcessOk(p, log, ix, m, h) && m <= k < |log|
    ensures AsWalked(Sync(p, ix, h).table, log[k], h)
  {
    EndPositive(p, log, m);
    assert log[..0] == [];
    hide Walk, Knows, Content, AsWalked;
    WalkIndexes(p, log, ix, m, k, h);
  }

  lemma InsertIndexes(ix: Index, s: string, pos: nat, synced: nat, h: string -> nat)
    requires ProbeTable.Valid(ix)
    ensures h(s) != 0 ==> Entry(h(s), pos) in Content(Insert(ix, h(s), pos).(synced := synced).table)
  {
    InsertKeeps(ix, h(s), pos);
    hide Insert, ProbeTable.Valid, Content;
  }

  lemma ShortRoom(p: Pool, s: string, pagesize: nat)
    requires pagesize >= 1 && p.next + 2 <= |p.bytes| && s != []
    ensures Fits(p, s, pagesize) <==> Clamped(p, s, pagesize) == |s| + 1
  {
  }

  // What storing a shortened string leaves behind
  lemma ShortenedIsStored(p: Pool, log: seq<Stored>, ix: Index, m: nat, s: string, pagesize: nat, h: string -> nat)
    requires PoolOk(p, log, h) && ProcessOk(p, log, ix, m, h) && CString(s) && s != [] && pagesize >= 1
    requires p.next + 2 <= |p.bytes| && AddStr(p, ix, s, pagesize, h).pool.next > p.next
    ensures var r, len := AddStr(p, ix, s, pagesize, h), Clamped(p, s, pagesize);
            && r.pos == p.next && GetStr(r.pool, r.pos) == s[..len - 1]
            && PoolOk(r.pool, log + [Stored(p.next, s[..len - 1], s)], h)
            && (h(s) != 0 ==> Entry(h(s), r.pos) in Content(r.index.table))
  {
    hide *;
    var known, len := Sync(p, ix, h), Clamped(p, s, pagesize);
    AddCases(p, ix, s, pagesize, h);
    PoolParts(p, log, h);
    SyncKeeps(p, log, ix, m, h);
    ProcessParts(p, log, known, |log|, h);
    StoreKeeps(p, log, known, s, len, h);
    InsertIndexes(known, s, p.next, p.next + len, h);
  }

  /** A string that does not fit and is stored is known to two processes under two hashes:
      to the one that stored it under that of the whole string, to one that walks the pool
      later under that of the text. */
  lemma ShortenedHasTwoHashes(p: Pool, log: seq<Stored>, ix: Index, other: Index, s: string, pagesize: nat, h: string -> nat)
    requires PoolOk(p, log, h) && Process(p, log, ix, h) && Process(p, log, other, h) && CString(s) && pagesize >= 1
    requires p.next + 2 <= |p.bytes| && !Fits(p, s, pagesize) && AddStr(p, ix, s, pagesize, h).pool.next > p.next
    ensures var r := AddStr(p, ix, s, pagesize, h);
            var text := GetStr(r.pool, r.pos);
            && text < s
            && (h(s) != 0 ==> Entry(h(s), r.pos) in Content(r.index.table))
            && (text != [] && h(text) != 0 ==> Entry(h(text), r.pos) in Content(Sync(r.pool, other, h).table))
  {
    var r, len := AddStr(p, ix, s, pagesize, h), Clamped(p, s, pagesize);
    var m :| ProcessOk(p, log, ix, m, h);
    var n :| ProcessOk(p, log, other, n, h);
    assert s != [];
    hide *;
    ShortRoom(p, s, pagesize);
    ShortenedIsStored(p, log, ix, m, s, pagesize, h);
    LaterWalk(p, log, r.pool, Stored(p.next, s[..len - 1], s), other, n, h);
  }

  lemma LaterWalk(p: Pool, log: seq<Stored>, r: Pool, x: Stored, ix: Index, m: nat, h: string -> nat)
    requires ProcessOk(p, log, ix, m, h) && PoolOk(r, log + [x], h)
    ensures x.text != [] && h(x.text) != 0 ==> Entry(h(x.text), x.pos) in Content(Sync(r, ix, h).table)
  {
    hide *;
    var longer := log + [x];
    PoolParts(r, longer, h);
    ProcessParts(p, log, ix, m, h);
    ProcessStable(p, log, r, longer, ix, m, h);
    SyncIndexes(r, longer, ix, m, |log|, h);
    if x.text != [] && h(x.text) != 0 {
      WalkedEntry(Sync(r, ix, h).table, x, h);
    }
  }

  lemma WalkedEntry(t: seq<Entry>, x: Stored, h: string -> nat)
    requires AsWalked(t, x, h) && x.text != [] && h(x.text) != 0
    ensures Entry(h(x.text), x.pos) in Content(t)
  {
  }

  /** How much of a string is stored: all of it if it takes at most a page with its terminator and
      leaves a byte of the pool free, otherwise as much of its beginning as does. Nothing is stored
      of an empty string or with less than two bytes left. */
  lemma StoredLength(p: Pool, log: seq<Stored>, ix: Index, s: string, pagesize: nat, h: string -> nat)
    requires PoolOk(p, log, h) && Process(p, log, ix, h) && CString(s) && pagesize >= 1 && p.next <= |p.bytes|
    ensures var r, left := AddStr(p, ix, s, pagesize, h), |p.bytes| - p.next;
            && (s == [] || left < 2 ==> r.pos == 0 && r.pool == p)
            && (s != [] && left >= 2 ==>
                 && (Fits(p, s, pagesize) <==> |s| + 1 <= pagesize && |s| + 2 <= left)
                 && (r.pool.next > p.next ==>
                      && GetStr(r.pool, r.pos) <= s
                      && |GetStr(r.pool, r.pos)| == Least(|s|, pagesize - 1, left - 2)))
  {
    var m :| ProcessOk(p, log, ix, m, h);
    hide PoolOk, ProcessOk, GetStr, CString, Sync, Find, Insert, Written;
    if s != [] && p.next + 2 <= |p.bytes| && AddStr(p, ix, s, pagesize, h).pool.next > p.next {
      ShortenedIsStored(p, log, ix, m, s, pagesize, h);
    }
    hide AddStr;
  }

  function Least(a: int, b: int, c: int): int {
    if a <= b && a <= c then a else if b <= c then b else c
  }

  /** Neither entry brings the string back: where it was shortened to len - 1 characters, the
      same string, again not fitting, matches only if it is now shortened further. */
  lemma ShortenedIsFoundIff(p: Pool, pos: nat, s: string, len: nat, n: nat)
    requires CString(s) && 1 <= len <= |s| && 1 <= n <= |s| + 1 && Matches(p.bytes, pos, s[..len - 1] + [NUL])
    ensures Matches(p.bytes, pos, (s + [NUL])[..n]) <==> n < len
  {
    var stored := s[..len - 1] + [NUL];
    var needle := (s + [NUL])[..n];
    hide Matches;
    MatchesAt(p.bytes, pos, stored, len - 1);
    if n >= len {
      assert needle[len - 1] == s[len - 1] != NUL;
      MatchesNot(p.bytes, pos, needle, len - 1);
    } else {
      forall k | 0 <= k < n
        ensures p.bytes[pos + k] == needle[k]
      {
        MatchesAt(p.bytes, pos, stored, k);
        assert stored[k] == s[k] == needle[k];
      }
      MatchesBy(p.bytes, pos, needle);
    }
  }

  lemma MatchesAt(b: seq<char>, pos: nat, s: seq<char>, k: nat)
    requires Matches(b, pos, s) && k < |s|
    ensures pos + k < |b| && b[pos + k] == s[k]
  {
    assert b[pos..pos + |s|][k] == b[pos + k];
  }

  lemma MatchesBy(b: seq<char>, pos: nat, s: seq<char>)
    requires pos + |s| <= |b| && forall k :: 0 <= k < |s| ==> b[pos + k] == s[k]
    ensures Matches(b, pos, s)
  {
    assert b[pos..pos + |s|] == s;
  }

  lemma MatchesNot(b: seq<char>, pos: nat, s: seq<char>, k: nat)
    requires k < |s| && pos + k < |b| && b[pos + k] != s[k]
    ensures !Matches(b, pos, s)
  {
    if pos + |s| <= |b| {
      assert b[pos..pos + |s|][k] == b[pos + k];
    }
  }

  /** An instance: four bytes of pool, "abcd". One letter is stored; the process that stored
      it knows it as "abcd", another one as "a". */
  lemma ShortenedExample(h: string -> nat)
    requires h("abcd") != 0 && h("a") != 0
    ensures var r := AddStr(Pool([NUL, NUL, NUL, NUL], 1), Index([], 0, 0), "abcd", 4096, h);
            && r.pos == 1 && GetStr(r.pool, 1) == "a"
            && Entry(h("abcd"), 1) in Content(r.index.table)
            && Entry(h("a"), 1) in Content(Sync(r.pool, Index([], 0, 0), h).table)
  {
    var p, ix := Pool([NUL, NUL, NUL, NUL], 1), Index([], 0, 0);
    InitialOk(4, h);
    assert seq(4, i => NUL) == p.bytes;
    assert ProcessOk(p, [], ix, 0, h);
    assert Clamped(p, "abcd", 4096) == 2 && Sync(p, ix, h) == ix.(synced := 1);
    assert Find(p.bytes, ix.(synced := 1), h("abcd"), ("abcd" + [NUL])[..2]).None?;
    assert CString("abcd") && "abcd"[..1] == "a";
    assert Process(p, [], ix, h) && PoolOk(p, [], h) && !Fits(p, "abcd", 4096);
    hide *;
    AddCases(p, ix, "abcd", 4096, h);
    PoolParts(p, [], h);
    SyncKeeps(p, [], ix, 0, h);
    StoreKeeps(p, [], ix.(synced := 1), "abcd", 2, h);
    ShortenedHasTwoHashes(p, [], ix, ix, "abcd", 4096, h);
  }

  // ---- Positions stay good ----

  lemma {:induction false} TextStable(a: seq<char>, b: seq<char>, pos: nat, n: nat)
    requires pos < n <= |a| && n <= |b| && a[..n] == b[..n] && a[n - 1] == NUL
    ensures Text(a, pos) == Text(b, pos)
    decreases n - pos
  {
    assert a[pos] == a[..n][pos] == b[pos];
    if a[pos] != NUL {
      TextStable(a, b, pos + 1, n);
    }
  }

  lemma LastIsNul(p: Pool, log: seq<Stored>)
    requires Laid(p, log)
    ensures p.bytes[p.next - 1] == NUL
  {
    if log != [] {
      var x := log[|log| - 1];
      assert Matches(p.bytes, x.pos, x.text + [NUL]);
      assert p.bytes[p.next - 1] == p.bytes[x.pos..x.pos + |x.text| + 1][|x.text|];
    }
  }

  lemma ReadsStable(p: Pool, log: seq<Stored>, r: Pool, pos: nat)
    requires Laid(p, log) && pos < p.next <= r.next && p.next <= |r.bytes| && r.bytes[..p.next] == p.bytes[..p.next]
    ensures GetStr(r, pos) == GetStr(p, pos)
  {
    LastIsNul(p, log);
    TextStable(p.bytes, r.bytes, pos, p.next);
  }

  // _addstr() writes behind `next` only
  lemma AddAppends(p: Pool, ix: Index, s: string, pagesize: nat, h: string -> nat)
    requires p.next <= |p.bytes| && pagesize >= 1
    ensures var r := AddStr(p, ix, s, pagesize, h).pool;
            p.next <= r.next && |r.bytes| == |p.bytes| && r.bytes[..p.next] == p.bytes[..p.next]
  {
    hide Sync, Find, Insert;
  }

  // ---- Every step ----

  lemma AddStep(sys: System, p: nat, s: string, pagesize: nat, h: string -> nat)
    requires SystemOk(sys, h) && Possible(sys, Add(p, s)) && pagesize >= 1
    ensures SystemOk(Step(sys, Add(p, s), pagesize, h), h)
  {
    hide AddStr, LogAfter, Fits, PoolOk, Process, GetStr;
    PoolParts(sys.pool, sys.log, h);
    hide Laid;
    var t := Step(sys, Add(p, s), pagesize, h);
    AddKeeps(sys.pool, sys.log, sys.procs[p], s, pagesize, h);
    AddAppends(sys.pool, sys.procs[p], s, pagesize, h);
    forall q | 0 <= q < |t.procs|
      ensures Process(t.pool, t.log, t.procs[q], h)
    {
      if q != p {
        OthersKnow(sys.pool, sys.log, t.pool, t.log, sys.procs[q], h);
      }
    }
    assert AllRead(sys.(pool := t.pool)) by {
      StillReads(sys, t.pool);
    }
  }

  lemma StillReads(sys: System, r: Pool)
    requires Laid(sys.pool, sys.log) && AllRead(sys)
    requires sys.pool.next <= r.next && sys.pool.next <= |r.bytes| && r.bytes[..sys.pool.next] == sys.pool.bytes[..sys.pool.next]
    ensures AllRead(sys.(pool := r))
  {
    hide Laid, GetStr;
    forall a | 0 <= a < |sys.answers|
      ensures GetStr(r, sys.answers[a].1) == sys.answers[a].0
    {
      ReadsStable(sys.pool, sys.log, r, sys.answers[a].1);
    }
  }

  lemma OthersKnow(p: Pool, log: seq<Stored>, r: Pool, longer: seq<Stored>, ix: Index, h: string -> nat)
    requires Process(p, log, ix, h) && PoolOk(r, longer, h) && log <= longer
    ensures Process(r, longer, ix, h)
  {
    PoolParts(r, longer, h);
    hide PoolOk, ProcessOk, Laid;
    var m :| ProcessOk(p, log, ix, m, h);
    ProcessStable(p, log, r, longer, ix, m, h);
  }

  lemma EnlargeStep(sys: System, n: nat, pagesize: nat, h: string -> nat)
    requires SystemOk(sys, h) && pagesize >= 1
    ensures SystemOk(Step(sys, Enlarge(n), pagesize, h), h)
  {
    var t := Step(sys, Enlarge(n), pagesize, h);
    EnlargedLaid(sys.pool, sys.log, t.pool);
    PoolParts(sys.pool, sys.log, h);
    assert PoolOk(t.pool, t.log, h);
    hide PoolOk, Process, Laid, GetStr;
    forall q | 0 <= q < |t.procs|
      ensures Process(t.pool, t.log, t.procs[q], h)
    {
      OthersKnow(sys.pool, sys.log, t.pool, t.log, sys.procs[q], h);
    }
    StillReads(sys, t.pool);
  }

  lemma EnlargedLaid(p: Pool, log: seq<Stored>, r: Pool)
    requires Laid(p, log) && r.next == p.next && p.bytes <= r.bytes
    ensures Laid(r, log) && r.bytes[..p.next] == p.bytes[..p.next]
  {
    forall k | 0 <= k < |log|
      ensures Matches(r.bytes, log[k].pos, log[k].text + [NUL])
    {
      var n := |log[k].text| + 1;
      assert Matches(p.bytes, log[k].pos, log[k].text + [NUL]);
      assert r.bytes[log[k].pos..log[k].pos + n] == p.bytes[log[k].pos..log[k].pos + n];
    }
  }

  lemma InitialOk(size: nat, h: string -> nat)
    requires size >= 1
    ensures SystemOk(System(Pool(seq(size, i => NUL), 1), [], [Index([], 0, 0)], []), h)
  {
    var sys := System(Pool(seq(size, i => NUL), 1), [], [Index([], 0, 0)], []);
    assert ProcessOk(sys.pool, [], Index([], 0, 0), 0, h);
  }

  /** Whatever sequence of locked calls, forks and growth: every process's table indexes
      exactly the pool prefix it has walked, no string that fits and has a hash other than
      0 is stored twice, and every position ever handed out for a string that fitted
      reads back that string. */
  lemma {:induction false} RunsShareStrings(size: nat, ops: seq<Op>, pagesize: nat, h: string -> nat)
    requires size >= 1 && pagesize >= 1 && Runs(size, ops, pagesize, h)
    ensures SystemOk(Exec(size, ops, pagesize, h), h)
    decreases |ops|
  {
    if ops == [] {
      InitialOk(size, h);
    } else {
      var n := |ops| - 1;
      assert forall k :: 0 <= k < n ==> ops[..n][..k] == ops[..k];
      hide SystemOk, Possible, Step;
      RunsShareStrings(size, ops[..n], pagesize, h);
      StepOk(Exec(size, ops[..n], pagesize, h), ops[n], pagesize, h);
    }
  }

  lemma StepOk(sys: System, op: Op, pagesize: nat, h: string -> nat)
    requires SystemOk(sys, h) && Possible(sys, op) && pagesize >= 1
    ensures SystemOk(Step(sys, op, pagesize, h), h)
  {
    match op {
      case Add(p, s) => AddStep(sys, p, s, pagesize, h);
      case Fork(p) => hide PoolOk, Process, GetStr;
      case Enlarge(n) => EnlargeStep(sys, n, pagesize, h);
    }
  }

  // ---- The program's own loops ----

  method StrLen(bytes: seq<char>, pos: nat) returns (n: nat)
    ensures n == |Text(bytes, pos)|
  {
    n := 0;
    while pos + n < |bytes| && bytes[pos + n] != NUL
      invariant |Text(bytes, pos)| == n + |Text(bytes, pos + n)|
      decreases |bytes| - n
    {
      n := n + 1;
    }
  }

  lemma {:induction false} TextSlice(bytes: seq<char>, pos: nat)
    requires pos <= |bytes|
    ensures pos + |Text(bytes, pos)| <= |bytes|
    ensures Text(bytes, pos) == bytes[pos..pos + |Text(bytes, pos)|]
    decreases |bytes| - pos
  {
    if pos < |bytes| && bytes[pos] != NUL {
      TextSlice(bytes, pos + 1);
    }
  }

  method SyncLoop(p: Pool, ix: Index, h: string -> nat) returns (r: Index)
    requires ProbeTable.Valid(ix) && p.next <= |p.bytes|
    ensures r == Sync(p, ix, h)
  {
    hide ProbeTable.Valid, Insert, Text;
    var pos := ix.synced;
    if pos == 0 && p.next > 0 {
      pos := 1;
    }
    r := ix;
    while pos < p.next
      invariant ProbeTable.Valid(r) && Walk(p, r, pos, h).(synced := p.next) == Sync(p, ix, h)
      decreases p.next - pos
    {
      var n := StrLen(p.bytes, pos);
      TextSlice(p.bytes, pos);
      if n > 0 {
        var hash := h(p.bytes[pos..pos + n]);
        InsertKeeps(r, hash, pos);
        r := InsertLoop(r, hash, pos);
      }
      pos := pos + n + 1;
    }
    r := r.(synced := p.next);
  }

  method Clamp(p: Pool, s: string, pagesize: nat) returns (len: nat)
    requires p.next + 2 <= |p.bytes| && pagesize >= 1
    ensures len == Clamped(p, s, pagesize)
  {
    len := |s| + 1;
    if len > pagesize - 1 {
      len := pagesize;
    }
    if len > |p.bytes| - p.next - 1 {
      len := |p.bytes| - p.next - 1;
    }
  }

  // The shared region, as one process sees it
  class Strings {
    var bytes: seq<char>
    var next: nat

    ghost function Snap(): Pool
      reads this
    {
      Pool(bytes, next)
    }

    constructor (size: nat)
      requires size >= 1
      ensures Snap() == Pool(seq(size, i => NUL), 1)
    {
      bytes, next := seq(size, i => NUL), 1;
    }
  }

  // A process: its own copy of the index
  class StringProcess {
    var index: Index
    const pagesize: nat
    const hash: string -> nat

    constructor (size: nat, h: string -> nat)
      requires size >= 1
      ensures index == Index([], 0, 0) && pagesize == size && hash == h
    {
      index, pagesize, hash := Index([], 0, 0), size, h;
    }

    /** _addstr() in place */
    method AddString(shared: Strings, s: string) returns (pos: nat)
      requires ProbeTable.Valid(index) && shared.next <= |shared.bytes| && pagesize >= 1
      modifies this`index, shared
      ensures Added(shared.Snap(), index, pos) == AddStr(old(shared.Snap()), old(index), s, pagesize, hash)
    {
      if s == [] || |shared.bytes| - shared.next < 2 {
        return 0;
      }
      hide ProbeTable.Valid, Sync, Find, Insert, Clamped, Written;
      var len := Clamp(Pool(shared.bytes, shared.next), s, pagesize);
      SyncValid(shared.Snap(), index, hash);
      index := SyncLoop(Pool(shared.bytes, shared.next), index, hash);
      var found := FindLoop(shared.bytes, index, hash(s), (s + [NUL])[..len]);
      if found.Some? {
        return found.value;
      }
      pos := shared.next;
      shared.bytes := Written(shared.bytes, shared.next, s[..len - 1] + [NUL]);
      shared.next := shared.next + len;
      index := InsertLoop(index, hash(s), pos);
      index := index.(synced := shared.next);
    }
  }

  lemma SyncValid(p: Pool, ix: Index, h: string -> nat)
    requires ProbeTable.Valid(ix)
    ensures ProbeTable.Valid(Sync(p, ix, h))
  {
    hide ProbeTable.Valid, Walk;
    var pos := if ix.synced == 0 && p.next > 0 then 1 else ix.synced;
    WalkValid(p, ix, pos, h);
    SyncedValid(Walk(p, ix, pos, h), p.next);
  }

  lemma {:induction false} WalkValid(p: Pool, ix: Index, pos: nat, h: string -> nat)
    requires ProbeTable.Valid(ix)
    ensures ProbeTable.Valid(Walk(p, ix, pos, h))
    decreases p.next - pos
  {
    hide ProbeTable.Valid, Insert, Text;
    if pos < p.next {
      var s := Text(p.bytes, pos);
      if s != [] {
        InsertKeeps(ix, h(s), pos);
        WalkValid(p, Insert(ix, h(s), pos), pos + |s| + 1, h);
      } else {
        WalkValid(p, ix, pos + |s| + 1, h);
      }
    }
  }
}
