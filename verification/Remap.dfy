// How forked processes agree on the size of the shared memory regions: a version counter
// in shared memory, a copy of it in every process, and a remap on taking the lock
// (src/shmem.c:674-760, src/shmem.c:1136-1222, src/shmem.c:1240-1307).
module Remap {
  import opened Records

  // queries, domains, clients, upstreams, DNS cache, per-client regex, strings, int
  // arrays and the three lookup tables
  const REGIONS := 11

  /** Where a process is. Resizing a region takes four steps: the file grows, both counters
      grow, the own mapping grows, the shared size grows. A process can die at any point. */
  datatype Phase =
    | Outside
    | Remapping(done: nat)
    | Inside
    | Allocated(region: nat, size: nat)
    | Counted(region: nat, size: nat)
    | Mapped(region: nat, size: nat)
    | Dead

  datatype Proc = Proc(phase: Phase, local: nat, mapped: seq<nat>)

  datatype System = System(version: nat, max: seq<nat>, file: seq<nat>, owner: Option<nat>, procs: seq<Proc>)

  datatype Act =
    | Lock(p: nat)
    | RemapNext(p: nat)
    | Allocate(p: nat, region: nat, size: nat)
    | CountUp(p: nat)
    | MapOwn(p: nat)
    | Publish(p: nat)
    | Unlock(p: nat)
    | Fork(p: nat)
    | Die(p: nat)

  // The lock is free, or its owner died and the mutex is made consistent
  ghost predicate Free(s: System) {
    s.owner.None? || (s.owner.value < |s.procs| && s.procs[s.owner.value].phase.Dead?)
  }

  ghost predicate Possible(s: System, a: Act) {
    && a.p < |s.procs|
    && var ph := s.procs[a.p].phase;
       match a
       case Lock(_) => ph.Outside? && Free(s)
       case RemapNext(_) => ph.Remapping?
       case Allocate(_, r, n) => ph.Inside? && r < |s.max| && r < |s.procs[a.p].mapped| && s.procs[a.p].mapped[r] < n
       case CountUp(_) => ph.Allocated?
       case MapOwn(_) => ph.Counted?
       case Publish(_) => ph.Mapped?
       case Unlock(_) => ph.Inside?
       case Fork(_) => ph.Outside?
       case Die(_) => !ph.Dead?
  }

  function Set(s: System, p: nat, q: Proc): System
    requires p < |s.procs|
  {
    s.(procs := s.procs[p := q])
  }

  function Put(xs: seq<nat>, i: nat, x: nat): (r: seq<nat>)
    ensures |r| == |xs|
  {
    if i < |xs| then xs[i := x] else xs
  }

  function Step(s: System, a: Act): System
  {
    if a.p >= |s.procs| then s
    else
      var q := s.procs[a.p];
      match a
      case Lock(p) =>
        Set(s, p, q.(phase := if q.local != s.version then Remapping(0) else Inside)).(owner := Some(p))
      case RemapNext(p) =>
        if !q.phase.Remapping? then s
        else
          var k := q.phase.done;
          if k < |s.max| then Set(s, p, q.(mapped := Put(q.mapped, k, s.max[k]), phase := Remapping(k + 1)))
          else Set(s, p, q.(local := s.version, phase := Inside))
      case Allocate(p, r, n) =>
        Set(s, p, q.(phase := Allocated(r, n))).(file := Put(s.file, r, if r < |s.file| && s.file[r] > n then s.file[r] else n))
      case CountUp(p) =>
        if !q.phase.Allocated? then s
        else Set(s, p, q.(local := q.local + 1, phase := Counted(q.phase.region, q.phase.size))).(version := s.version + 1)
      case MapOwn(p) =>
        if !q.phase.Counted? then s
        else Set(s, p, q.(mapped := Put(q.mapped, q.phase.region, q.phase.size), phase := Mapped(q.phase.region, q.phase.size)))
      case Publish(p) =>
        if !q.phase.Mapped? then s
        else Set(s, p, q.(phase := Inside)).(max := Put(s.max, q.phase.region, q.phase.size))
      case Unlock(p) =>
        Set(s, p, q.(phase := Outside)).(owner := None)
      case Fork(p) =>
        s.(procs := s.procs + [q])
      case Die(p) =>
        Set(s, p, q.(phase := Dead))
  }

  // ---- Invariant ----

  // A process that is up to date maps exactly what is published, unless it is resizing
  ghost predicate ProcOk(s: System, q: Proc) {
    && |q.mapped| == |s.max| == |s.file|
    && q.local <= s.version
    && (forall r :: 0 <= r < |s.max| ==> q.mapped[r] <= s.file[r])
    && match q.phase
       case Outside => q.local == s.version ==> q.mapped == s.max
       case Remapping(k) => k <= |s.max| && q.mapped[..k] == s.max[..k]
       case Inside => q.local == s.version && q.mapped == s.max
       case Allocated(r, n) => q.local == s.version && q.mapped == s.max && r < |s.max| && s.max[r] < n <= s.file[r]
       case Counted(r, n) => q.local == s.version && q.mapped == s.max && r < |s.max| && s.max[r] < n <= s.file[r]
       case Mapped(r, n) => q.local == s.version && r < |s.max| && s.max[r] < n <= s.file[r] && q.mapped == s.max[r := n]
       case Dead => true
  }

  // Nobody else can be up to date while a resize is between its counting and its end
  ghost predicate Ahead(s: System, p: nat)
    requires p < |s.procs|
  {
    s.procs[p].phase.Counted? || s.procs[p].phase.Mapped? ==>
      forall q :: 0 <= q < |s.procs| && q != p && !s.procs[q].phase.Dead? ==> s.procs[q].local < s.version
  }

  ghost predicate Sized(s: System) {
    |s.max| == REGIONS == |s.file| && forall r :: 0 <= r < |s.max| ==> s.max[r] <= s.file[r]
  }

  // Only the owner of the lock is past it
  ghost predicate Exclusive(s: System) {
    forall p :: 0 <= p < |s.procs| && !s.procs[p].phase.Outside? && !s.procs[p].phase.Dead? ==> s.owner == Some(p)
  }

  ghost predicate Coherent(s: System) {
    && Sized(s) && Exclusive(s)
    && (forall p :: 0 <= p < |s.procs| ==> ProcOk(s, s.procs[p]) && Ahead(s, p))
  }

  lemma ShareKeeps(s: System, a: Act)
    requires Coherent(s) && Possible(s, a) && (a.Lock? || a.Unlock? || a.Fork? || a.Die?)
    ensures Coherent(Step(s, a))
  {
    var t := Step(s, a);
    forall p | 0 <= p < |t.procs|
      ensures ProcOk(t, t.procs[p]) && Ahead(t, p)
    {
      var src := if p < |s.procs| then p else a.p;
      assert ProcOk(s, s.procs[src]) && Ahead(s, src);
    }
  }

  lemma RemapKeeps(s: System, a: Act)
    requires Coherent(s) && Possible(s, a) && a.RemapNext?
    ensures Coherent(Step(s, a))
  {
    var t, q := Step(s, a), s.procs[a.p];
    var k := q.phase.done;
    assert ProcOk(s, q);
    if k < |s.max| {
      assert t.procs[a.p].mapped[..k + 1] == q.mapped[..k] + [s.max[k]];
    } else {
      assert q.mapped == q.mapped[..k] && s.max == s.max[..k];
    }
    forall p | 0 <= p < |t.procs|
      ensures ProcOk(t, t.procs[p]) && Ahead(t, p)
    {
      assert ProcOk(s, s.procs[p]) && Ahead(s, p);
    }
  }

  lemma ResizeKeeps(s: System, a: Act)
    requires Coherent(s) && Possible(s, a) && (a.Allocate? || a.CountUp? || a.MapOwn? || a.Publish?)
    ensures Coherent(Step(s, a))
  {
    var t := Step(s, a);
    assert ProcOk(s, s.procs[a.p]) && Ahead(s, a.p);
    forall p | 0 <= p < |t.procs|
      ensures ProcOk(t, t.procs[p]) && Ahead(t, p)
    {
      assert ProcOk(s, s.procs[p]) && Ahead(s, p);
    }
  }

  lemma StepKeeps(s: System, a: Act)
    requires Coherent(s) && Possible(s, a)
    ensures Coherent(Step(s, a))
  {
    hide *;
    if a.Lock? || a.Unlock? || a.Fork? || a.Die? {
      ShareKeeps(s, a);
    } else if a.RemapNext? {
      RemapKeeps(s, a);
    } else {
      ResizeKeeps(s, a);
    }
  }

  // ---- Runs ----

  ghost function Exec(s: System, acts: seq<Act>): System {
    if acts == [] then s else Step(Exec(s, acts[..|acts| - 1]), acts[|acts| - 1])
  }

  ghost predicate Run(s: System, acts: seq<Act>) {
    forall k :: 0 <= k < |acts| ==> Possible(Exec(s, acts[..k]), acts[k])
  }

  // One process that has created and mapped every region
  ghost predicate Started(s: System) {
    && |s.max| == REGIONS && s.file == s.max && s.owner == None
    && |s.procs| == 1 && s.procs[0] == Proc(Outside, s.version, s.max)
  }

  lemma {:induction false} RunsCoherent(s: System, acts: seq<Act>)
    requires Started(s) && Run(s, acts)
    ensures Coherent(Exec(s, acts))
  {
    if acts != [] {
      var n := |acts| - 1;
      assert forall k :: 0 <= k < n ==> acts[..n][..k] == acts[..k];
      hide Coherent, Possible, Step;
      RunsCoherent(s, acts[..n]);
      StepKeeps(Exec(s, acts[..n]), acts[n]);
    }
  }

  /** For any number of processes locking, resizing, forking and dying: a process that is
      past the lock is the only one, its copy of the counter is the shared one, its
      mapping of every region has the published size, and the file behind it is at least
      that large. A process whose copy of the counter agrees is never stale. */
  lemma NeverStale(s: System, acts: seq<Act>, p: nat)
    requires Started(s) && Run(s, acts) && p < |Exec(s, acts).procs|
    ensures var t := Exec(s, acts);
            var q := t.procs[p];
            && (q.phase.Inside? ==>
                  && t.owner == Some(p) && q.local == t.version && q.mapped == t.max && |t.max| == REGIONS == |t.file|
                  && forall r :: 0 <= r < REGIONS ==> q.mapped[r] <= t.file[r])
            && (q.phase.Outside? && q.local == t.version ==> q.mapped == t.max)
  {
    RunsCoherent(s, acts);
    var t := Exec(s, acts);
    hide Exec, Run;
    assert ProcOk(t, t.procs[p]);
  }

  // ---- What locking and resizing achieve ----

  ghost function Resized(s: System, p: nat, r: nat, n: nat): System {
    Step(Step(Step(Step(s, Allocate(p, r, n)), CountUp(p)), MapOwn(p)), Publish(p))
  }

  /** The four steps of a resize: the region has the new size for everybody who looks, file, published
      size and own mapping alike, and everybody else who was up to date is so no longer. */
  lemma ResizeEffect(s: System, p: nat, r: nat, n: nat)
    requires Coherent(s) && p < |s.procs| && s.procs[p].phase.Inside? && r < |s.max| && s.max[r] < n
    ensures var t := Resized(s, p, r, n);
            && t.max == s.max[r := n] && |t.file| == |s.file| && n <= t.file[r] && t.version == s.version + 1
            && |t.procs| == |s.procs| && t.procs[p] == Proc(Inside, t.version, t.max) && t.owner == Some(p)
            && forall q :: 0 <= q < |s.procs| && q != p ==> t.procs[q] == s.procs[q] && t.procs[q].local < t.version
  {
    assert ProcOk(s, s.procs[p]);
    forall q | 0 <= q < |s.procs|
      ensures s.procs[q].local <= s.version
    {
      assert ProcOk(s, s.procs[q]);
    }
  }

  ghost function Remaps(s: System, p: nat, n: nat): System {
    if n == 0 then s else Step(Remaps(s, p, n - 1), RemapNext(p))
  }

  // After n turns of the remapping loop
  lemma {:induction false} RemapsSome(s: System, p: nat, n: nat)
    requires p < |s.procs| && s.procs[p].phase == Remapping(0) && |s.procs[p].mapped| == |s.max| && n <= |s.max|
    ensures var t := Remaps(s, p, n);
            && t == s.(procs := t.procs) && |t.procs| == |s.procs|
            && t.procs[p] == s.procs[p].(phase := Remapping(n), mapped := t.procs[p].mapped)
            && |t.procs[p].mapped| == |s.max| && t.procs[p].mapped[..n] == s.max[..n]
  {
    if n > 0 {
      RemapsSome(s, p, n - 1);
      var m, t := Remaps(s, p, n - 1), Remaps(s, p, n);
      assert t.procs[p].mapped[..n] == m.procs[p].mapped[..n - 1] + [s.max[n - 1]];
      assert s.max[..n] == s.max[..n - 1] + [s.max[n - 1]];
    }
  }

  /** A stale process that takes the lock maps every region at its published size and is up to date
      before it goes on; one that is up to date goes on at once. */
  lemma LockEffect(s: System, p: nat)
    requires Coherent(s) && Possible(s, Lock(p))
    ensures var t := Step(s, Lock(p));
            var u := if s.procs[p].local == s.version then t else Remaps(t, p, REGIONS + 1);
            && p < |u.procs| && u.procs[p] == Proc(Inside, s.version, s.max) && u.owner == Some(p)
            && u.max == s.max && u.version == s.version
  {
    assert ProcOk(s, s.procs[p]);
    if s.procs[p].local != s.version {
      var t := Step(s, Lock(p));
      RemapsSome(t, p, REGIONS);
      var m := Remaps(t, p, REGIONS);
      assert m.procs[p].mapped == m.procs[p].mapped[..REGIONS] && s.max == s.max[..REGIONS];
    }
  }
}
