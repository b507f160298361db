/**
 * The launch engine of crates/nswrap/src/core.rs: `WrapCore` holds the
 * configuration, `Spawn` clones a child and the child runs `RunChild`, which
 * joins namespaces, creates namespaces, writes the id maps, builds the
 * tmpfs root and finally runs the callbacks. Every step that fails panics,
 * so what the child does is the run (Kernel.Run) of one plan of calls,
 * `ChildPlan`, and the lemmas below are about that plan.
 */
module NsCore {
  import W = Wrappers
  import opened Text
  import C = NsConfig
  import K = Kernel
  import U = NsUtil
  import F = IdMapFile
  import E = NsError
  import NsChild

  // ---- Namespace sets ----

  /** The flag the launcher passes for each kind. */
  function KindFlag(k: C.NamespaceType): bv32 {
    match k
    case User => U.CLONE_NEWUSER
    case Mount => U.CLONE_NEWNS
    case Cgroup => U.CLONE_NEWCGROUP
    case Uts => U.CLONE_NEWUTS
    case Ipc => U.CLONE_NEWIPC
    case Pid => U.CLONE_NEWPID
    case Network => U.CLONE_NEWNET
    case Time => U.CLONE_NEWTIME
  }

  /** `apply_namespace_item`: no call, one unshare(2), or one setns(2). */
  function ItemPlan(item: C.NamespaceItem, flag: bv32): (plan: seq<K.Event>)
    ensures |plan| <= 1 && (plan == [] <==> item.None?)
    ensures item.Unshare? ==> plan == [K.Unshare(flag)]
    ensures item.Enter? ==> plan == [K.Setns(item.fd, flag)]
  {
    match item
    case None => []
    case Unshare => [K.Unshare(flag)]
    case Enter(fd) => [K.Setns(fd, flag)]
  }

  /** The calls for the `m`-th kind of the launcher's order. */
  function ItemAt(s: C.NamespaceSet, m: nat): seq<K.Event>
    requires m < |C.KIND_ORDER|
  {
    var k := C.KIND_ORDER[m];
    ItemPlan(C.Slot(s, k).GetOr(C.NamespaceItem.None), KindFlag(k))
  }

  /** The calls for the kinds from the `m`-th on. */
  function PlanFrom(s: C.NamespaceSet, m: nat): seq<K.Event>
    requires m <= |C.KIND_ORDER|
    decreases |C.KIND_ORDER| - m
  {
    if m == |C.KIND_ORDER| then [] else ItemAt(s, m) + PlanFrom(s, m + 1)
  }

  /** The calls `apply_nsenter` / `apply_unshare` make for a set, kind by kind. */
  function SetPlan(s: C.NamespaceSet): seq<K.Event> {
    PlanFrom(s, 0)
  }

  /** The same calls field by field, as the code lists them. */
  lemma SetPlanByFields(s: C.NamespaceSet)
    ensures SetPlan(s) == ItemPlan(s.user, U.CLONE_NEWUSER) + PlanFrom(s, 1)
    ensures PlanFrom(s, 1) == ItemPlan(s.mount, U.CLONE_NEWNS) + PlanFrom(s, 2)
    ensures PlanFrom(s, 2) == ItemPlan(s.cgroup, U.CLONE_NEWCGROUP) + PlanFrom(s, 3)
    ensures PlanFrom(s, 3) == ItemPlan(s.uts, U.CLONE_NEWUTS) + PlanFrom(s, 4)
    ensures PlanFrom(s, 4) == ItemPlan(s.ipc, U.CLONE_NEWIPC) + PlanFrom(s, 5)
    ensures PlanFrom(s, 5) == ItemPlan(s.pid, U.CLONE_NEWPID) + PlanFrom(s, 6)
    ensures PlanFrom(s, 6) == ItemPlan(s.network, U.CLONE_NEWNET) + PlanFrom(s, 7)
    ensures PlanFrom(s, 7) == []
  {
    ItemAtFields(s);
  }

  /** The namespace flag an event carries, if it is an unshare(2) or setns(2). */
  function NsFlag(e: K.Event): W.Option<bv32> {
    match e
    case Unshare(f) => W.Some(f)
    case Setns(_, f) => W.Some(f)
    case _ => W.None
  }

  /** The position in the launcher's order of the kind a flag stands for (7 if none). */
  function Rank(flag: bv32): nat {
    if flag == U.CLONE_NEWUSER then 0
    else if flag == U.CLONE_NEWNS then 1
    else if flag == U.CLONE_NEWCGROUP then 2
    else if flag == U.CLONE_NEWUTS then 3
    else if flag == U.CLONE_NEWIPC then 4
    else if flag == U.CLONE_NEWPID then 5
    else if flag == U.CLONE_NEWNET then 6
    else 7
  }

  lemma RankOfKind(m: nat)
    requires m < |C.KIND_ORDER|
    ensures Rank(KindFlag(C.KIND_ORDER[m])) == m
  {
  }

  lemma {:induction false} PlanFromRanks(s: C.NamespaceSet, m: nat)
    requires m <= |C.KIND_ORDER|
    ensures forall i :: 0 <= i < |PlanFrom(s, m)| ==>
      NsFlag(PlanFrom(s, m)[i]).Some? && m <= Rank(NsFlag(PlanFrom(s, m)[i]).value) < |C.KIND_ORDER|
    ensures forall i, j :: 0 <= i < j < |PlanFrom(s, m)| ==>
      Rank(NsFlag(PlanFrom(s, m)[i]).value) < Rank(NsFlag(PlanFrom(s, m)[j]).value)
    decreases |C.KIND_ORDER| - m
  {
    if m < |C.KIND_ORDER| {
      PlanFromRanks(s, m + 1);
      RankOfKind(m);
      var head := ItemAt(s, m);
      var rest := PlanFrom(s, m + 1);
      assert PlanFrom(s, m) == head + rest;
      assert |head| <= 1;
      forall i | 0 <= i < |head|
        ensures NsFlag(head[i]) == W.Some(KindFlag(C.KIND_ORDER[m]))
      {
      }
    }
  }

  /**
   * `apply_nsenter` and `apply_unshare` act on the kinds in the fixed order
   * user, mount, cgroup, uts, ipc, pid, network, at most one call per kind,
   * each with that kind's flag, and never on a time namespace.
   */
  lemma SetPlanFollowsKindOrder(s: C.NamespaceSet)
    ensures forall i :: 0 <= i < |SetPlan(s)| ==>
      NsFlag(SetPlan(s)[i]).Some? && Rank(NsFlag(SetPlan(s)[i]).value) < |C.KIND_ORDER|
    ensures forall i, j :: 0 <= i < j < |SetPlan(s)| ==>
      Rank(NsFlag(SetPlan(s)[i]).value) < Rank(NsFlag(SetPlan(s)[j]).value)
    ensures forall i :: 0 <= i < |SetPlan(s)| ==> NsFlag(SetPlan(s)[i]) != W.Some(U.CLONE_NEWTIME)
  {
    PlanFromRanks(s, 0);
    assert Rank(U.CLONE_NEWTIME) == 7;
  }

  lemma {:induction false} InPlanFrom(s: C.NamespaceSet, m: nat, e: K.Event)
    requires m <= |C.KIND_ORDER|
    ensures e in PlanFrom(s, m) <==> exists j :: m <= j < |C.KIND_ORDER| && e in ItemAt(s, j)
    decreases |C.KIND_ORDER| - m
  {
    if m < |C.KIND_ORDER| {
      InPlanFrom(s, m + 1, e);
      assert PlanFrom(s, m) == ItemAt(s, m) + PlanFrom(s, m + 1);
      if e in ItemAt(s, m) {
        assert m <= m < |C.KIND_ORDER| && e in ItemAt(s, m);
      }
    }
  }

  /** Every call for the `m`-th kind carries that kind's flag. */
  lemma ItemAtFlag(s: C.NamespaceSet, m: nat, e: K.Event)
    requires m < |C.KIND_ORDER|
    requires e in ItemAt(s, m)
    ensures NsFlag(e) == W.Some(KindFlag(C.KIND_ORDER[m]))
  {
  }

  /** A call carrying the flag of the `m`-th kind is in the set's calls only as that kind's call. */
  lemma InSetPlanOnlyAtKind(s: C.NamespaceSet, m: nat, e: K.Event)
    requires m < |C.KIND_ORDER|
    requires NsFlag(e) == W.Some(KindFlag(C.KIND_ORDER[m]))
    ensures e in SetPlan(s) <==> e in ItemAt(s, m)
  {
    InPlanFrom(s, 0, e);
    RankOfKind(m);
    forall j | 0 <= j < |C.KIND_ORDER| && j != m
      ensures e !in ItemAt(s, j)
    {
      RankOfKind(j);
      if e in ItemAt(s, j) {
        ItemAtFlag(s, j, e);
      }
    }
  }

  /**
   * The set's calls are exactly its slots' actions: kind `k` is unshared iff
   * its slot says `Unshare`, and its namespace `fd` is joined iff its slot
   * says `Enter(fd)`.
   */
  lemma SetPlanMatchesSlots(s: C.NamespaceSet, m: nat, fd: int)
    requires m < |C.KIND_ORDER|
    ensures var k := C.KIND_ORDER[m];
      (K.Unshare(KindFlag(k)) in SetPlan(s) <==> C.Slot(s, k) == W.Some(C.NamespaceItem.Unshare))
      && (K.Setns(fd, KindFlag(k)) in SetPlan(s) <==> C.Slot(s, k) == W.Some(C.NamespaceItem.Enter(fd)))
  {
    var k := C.KIND_ORDER[m];
    InSetPlanOnlyAtKind(s, m, K.Unshare(KindFlag(k)));
    InSetPlanOnlyAtKind(s, m, K.Setns(fd, KindFlag(k)));
    var slot := C.Slot(s, k);
    assert ItemAt(s, m) == ItemPlan(slot.GetOr(C.NamespaceItem.None), KindFlag(k));
    ItemPlanHas(slot.GetOr(C.NamespaceItem.None), KindFlag(k), fd);
  }

  /** A set as `Default` builds it makes `apply_nsenter` / `apply_unshare` issue no call at all. */
  lemma DefaultSetMakesNoCalls()
    ensures SetPlan(C.DEFAULT_NAMESPACE_SET) == []
  {
    SetPlanByFields(C.DEFAULT_NAMESPACE_SET);
  }

  /** One item's calls: the unshare(2) of its flag iff it says `Unshare`, the setns(2) of `fd` iff it says `Enter(fd)`. */
  lemma ItemPlanHas(item: C.NamespaceItem, flag: bv32, fd: int)
    ensures K.Unshare(flag) in ItemPlan(item, flag) <==> item == C.NamespaceItem.Unshare
    ensures K.Setns(fd, flag) in ItemPlan(item, flag) <==> item == C.NamespaceItem.Enter(fd)
  {
  }

  // ---- Callbacks ----

  /** The events of running the callbacks in the given order, one each. */
  function Invocations(cbs: seq<K.Callback>): (r: seq<K.Event>)
    ensures |r| == |cbs|
    ensures forall i :: 0 <= i < |cbs| ==> r[i] == K.Invoke(cbs[i].id)
  {
    if cbs == [] then [] else [K.Invoke(cbs[0].id)] + Invocations(cbs[1..])
  }

  /** The value the last callback run returned; 0 when none ran. */
  function LastValue(cbs: seq<K.Callback>): int {
    if cbs == [] then 0 else cbs[|cbs| - 1].value
  }

  /** User callbacks never fail, so running them always completes. */
  lemma InvocationsComplete(refused: map<K.Event, int>, cbs: seq<K.Callback>)
    ensures K.Completes(refused, Invocations(cbs))
    ensures K.Run(refused, Invocations(cbs)) == Invocations(cbs)
  {
  }

  /**
   * Takes the callbacks off the front of `queue` one at a time and runs
   * each: they run once each in the order queued, and the value returned
   * is the last one's, 0 if there were none.
   */
  method InvokeAll(t: K.Task, queue: seq<K.Callback>) returns (ret: int)
    modifies t`log
    ensures t.log == old(t.log) + Invocations(queue)
    ensures ret == LastValue(queue)
  {
    var rest := queue;
    ret := 0;
    for i := 0 to |queue|
      invariant rest == queue[i..]
      invariant t.log == old(t.log) + Invocations(queue[..i])
      invariant ret == LastValue(queue[..i])
    {
      var cb := rest[0];
      rest := rest[1..];
      ret := t.Invoke(cb);
      assert queue[..i + 1] == queue[..i] + [cb];
    }
    assert queue[..|queue|] == queue;
  }

  // ---- The tmpfs root ----

  const TMP_PATH: string := "/tmp"

  /** 0o755 */
  const DIR_MODE: nat := 493

  /** `set_up_tmpfs_cwd`, call by call. */
  const TMPFS_PLAN: seq<K.Event> := [
    K.ChangeMount("/", K.MS_SLAVE | K.MS_REC),
    K.Mount("tmpfs", TMP_PATH, "tmpfs", K.MS_NODEV | K.MS_NOSUID, ""),
    K.Chdir(TMP_PATH),
    K.Mkdir("/tmp/newroot", DIR_MODE),
    K.Mkdir("oldroot", DIR_MODE),
    K.Mount("newroot", "newroot", "", K.MS_SILENT | K.MS_BIND | K.MS_REC, ""),
    K.PivotRoot(TMP_PATH, "oldroot")]

  /** A path as the kernel reads it from working directory `cwd`. */
  function Resolve(cwd: string, p: string): string {
    if |p| > 0 && p[0] == '/' then p else cwd + "/" + p
  }

  /** The working directory after a run of calls. */
  function CwdAfter(cwd: string, plan: seq<K.Event>): string
    decreases |plan|
  {
    if plan == [] then cwd
    else CwdAfter(if plan[0].Chdir? then Resolve(cwd, plan[0].path) else cwd, plan[1..])
  }

  /**
   * Where the relative paths of the tmpfs plan land: from any starting
   * directory the plan works in /tmp, `oldroot` is the directory made for
   * it and lies under the new root /tmp (as pivot_root(2) requires of
   * put_old), and the bind-mounted `newroot` is /tmp/newroot, which is not
   * the directory the root is pivoted to.
   */
  lemma TmpfsPaths(cwd0: string)
    ensures CwdAfter(cwd0, TMPFS_PLAN[..3]) == TMP_PATH
    ensures CwdAfter(cwd0, TMPFS_PLAN[..6]) == TMP_PATH
    ensures Resolve(TMP_PATH, TMPFS_PLAN[4].path) == Resolve(TMP_PATH, TMPFS_PLAN[6].putOld) == "/tmp/oldroot"
    ensures TMPFS_PLAN[6].newRoot + "/" <= Resolve(TMP_PATH, TMPFS_PLAN[6].putOld)
    ensures Resolve(TMP_PATH, TMPFS_PLAN[5].target) == TMPFS_PLAN[3].path == "/tmp/newroot"
    ensures TMPFS_PLAN[6].newRoot != TMPFS_PLAN[3].path
  {
    var p := TMPFS_PLAN;
    assert CwdAfter(TMP_PATH, []) == TMP_PATH;
    assert p[..3][1..][1..] == [p[2]];
    assert CwdAfter(cwd0, p[..3][1..][1..]) == CwdAfter(TMP_PATH, []);
    assert CwdAfter(cwd0, p[..3]) == CwdAfter(cwd0, p[..3][1..][1..]);
    var tail := p[..6][1..][1..][1..];
    assert tail == [p[3], p[4], p[5]];
    assert tail[1..][1..][1..] == [];
    assert CwdAfter(TMP_PATH, tail[1..][1..]) == CwdAfter(TMP_PATH, tail[1..][1..][1..]);
    assert CwdAfter(TMP_PATH, tail[1..]) == CwdAfter(TMP_PATH, tail[1..][1..]);
    assert CwdAfter(TMP_PATH, tail) == CwdAfter(TMP_PATH, tail[1..]);
    assert p[..6][1..][1..] == [p[2]] + tail;
    assert CwdAfter(cwd0, p[..6][1..][1..]) == CwdAfter(TMP_PATH, tail);
    assert CwdAfter(cwd0, p[..6]) == CwdAfter(cwd0, p[..6][1..][1..]);
  }

  // ---- The child's plan ----

  /**
   * `set_id_map` runs only when some map entry exists; as written it builds
   * both the uid_map and the gid_map content from `uid_maps`.
   */
  function IdMapStep(uidMaps: seq<C.IdMap>, gidMaps: seq<C.IdMap>, pid: nat): seq<K.Event> {
    if |uidMaps| + |gidMaps| > 0 then F.SetIdMapPlan(pid, uidMaps, uidMaps) else []
  }

  /** The id-map step as intended: the gid_map content built from `gid_maps`. */
  function IdMapStepIntended(uidMaps: seq<C.IdMap>, gidMaps: seq<C.IdMap>, pid: nat): seq<K.Event> {
    if |uidMaps| + |gidMaps| > 0 then F.SetIdMapPlan(pid, uidMaps, gidMaps) else []
  }

  /**
   * The two id-map steps agree except in the gid_map write, where the one
   * as written carries the uid list and the intended one the gid list.
   */
  lemma IdMapStepsDiffer(uidMaps: seq<C.IdMap>, gidMaps: seq<C.IdMap>, pid: nat)
    ensures var c, c' := IdMapStep(uidMaps, gidMaps, pid), IdMapStepIntended(uidMaps, gidMaps, pid);
      |c| == |c'|
      && (forall j :: 0 <= j < |c| && c[j] != c'[j] ==>
            j == 2 && c[j] == K.WriteFile(F.ProcPath(pid, "gid_map"), F.Serialize(uidMaps))
            && c'[j] == K.WriteFile(F.ProcPath(pid, "gid_map"), F.Serialize(gidMaps)))
      && (uidMaps != gidMaps ==> |c| == 3 && c[2] != c'[2])
  {
    if F.Serialize(uidMaps) == F.Serialize(gidMaps) {
      F.SerializeInjective(uidMaps, gidMaps);
    }
  }

  function TmpfsStep(sandboxMnt: bool): seq<K.Event> {
    if sandboxMnt then TMPFS_PLAN else []
  }

  /** What `run_child` sets out to do in process `pid`, in order. */
  function ChildPlan(nsenter: C.NamespaceSet, unshare: C.NamespaceSet, uidMaps: seq<C.IdMap>,
                     gidMaps: seq<C.IdMap>, sandboxMnt: bool, callbacks: seq<K.Callback>, pid: nat): seq<K.Event>
  {
    SetPlan(nsenter) + (SetPlan(unshare) + (IdMapStep(uidMaps, gidMaps, pid)
      + (TmpfsStep(sandboxMnt) + Invocations(callbacks))))
  }

  /** `run_child` with the id maps written as intended. */
  function ChildPlanIntended(nsenter: C.NamespaceSet, unshare: C.NamespaceSet, uidMaps: seq<C.IdMap>,
                             gidMaps: seq<C.IdMap>, sandboxMnt: bool, callbacks: seq<K.Callback>, pid: nat): seq<K.Event>
  {
    SetPlan(nsenter) + (SetPlan(unshare) + (IdMapStepIntended(uidMaps, gidMaps, pid)
      + (TmpfsStep(sandboxMnt) + Invocations(callbacks))))
  }

  /**
   * The child's plan as written and as intended make the same calls in the
   * same order, but for the gid_map write: the one as written writes the
   * uid list there, and whenever the two lists differ the plans differ.
   */
  lemma ChildPlanDiffersOnlyInGidMap(nsenter: C.NamespaceSet, unshare: C.NamespaceSet, uidMaps: seq<C.IdMap>,
                                     gidMaps: seq<C.IdMap>, sandboxMnt: bool, callbacks: seq<K.Callback>, pid: nat)
    ensures var p := ChildPlan(nsenter, unshare, uidMaps, gidMaps, sandboxMnt, callbacks, pid);
      var q := ChildPlanIntended(nsenter, unshare, uidMaps, gidMaps, sandboxMnt, callbacks, pid);
      |p| == |q|
      && (forall i :: 0 <= i < |p| && p[i] != q[i] ==>
            p[i] == K.WriteFile(F.ProcPath(pid, "gid_map"), F.Serialize(uidMaps))
            && q[i] == K.WriteFile(F.ProcPath(pid, "gid_map"), F.Serialize(gidMaps)))
      && (uidMaps != gidMaps ==> p != q)
  {
    var c, c' := IdMapStep(uidMaps, gidMaps, pid), IdMapStepIntended(uidMaps, gidMaps, pid);
    IdMapStepsDiffer(uidMaps, gidMaps, pid);
    SpliceDiffers(SetPlan(nsenter) + SetPlan(unshare), c, c', TmpfsStep(sandboxMnt) + Invocations(callbacks));
    Reassociate(SetPlan(nsenter), SetPlan(unshare), c, TmpfsStep(sandboxMnt), Invocations(callbacks));
    Reassociate(SetPlan(nsenter), SetPlan(unshare), c', TmpfsStep(sandboxMnt), Invocations(callbacks));
  }

  /** Two sequences that differ only in a middle part differ only where those parts do. */
  lemma SpliceDiffers<T>(x: seq<T>, z: seq<T>, z': seq<T>, w: seq<T>)
    requires |z| == |z'|
    ensures |x + z + w| == |x + z' + w|
    ensures forall i :: 0 <= i < |x + z + w| && (x + z + w)[i] != (x + z' + w)[i] ==>
      |x| <= i < |x| + |z| && (x + z + w)[i] == z[i - |x|] && (x + z' + w)[i] == z'[i - |x|]
    ensures forall j :: 0 <= j < |z| ==> (x + z + w)[|x| + j] == z[j] && (x + z' + w)[|x| + j] == z'[j]
  {
  }

  /** The setup part of the child's plan: everything before the callbacks. */
  function SetupPlan(nsenter: C.NamespaceSet, unshare: C.NamespaceSet, uidMaps: seq<C.IdMap>,
                     gidMaps: seq<C.IdMap>, sandboxMnt: bool, pid: nat): seq<K.Event>
  {
    SetPlan(nsenter) + SetPlan(unshare) + IdMapStep(uidMaps, gidMaps, pid) + TmpfsStep(sandboxMnt)
  }

  /** The phase of the launch a call belongs to. */
  function Phase(e: K.Event): nat {
    if e.Unshare? || e.Setns? || e.Clone? then 0
    else if e.WriteFile? then 1
    else if e.Invoke? then 3
    else 2
  }

  predicate InPhase(plan: seq<K.Event>, n: nat) {
    forall i :: 0 <= i < |plan| ==> Phase(plan[i]) == n
  }

  predicate PhaseSorted(plan: seq<K.Event>) {
    forall i, j :: 0 <= i < j < |plan| ==> Phase(plan[i]) <= Phase(plan[j])
  }

  lemma {:induction false} PlanFromInPhase(s: C.NamespaceSet, m: nat)
    requires m <= |C.KIND_ORDER|
    ensures InPhase(PlanFrom(s, m), 0)
    decreases |C.KIND_ORDER| - m
  {
    if m < |C.KIND_ORDER| {
      PlanFromInPhase(s, m + 1);
      assert PlanFrom(s, m) == ItemAt(s, m) + PlanFrom(s, m + 1);
    }
  }

  /** Every call of the tmpfs plan is a mount-table or directory call. */
  lemma TmpfsPlanInPhase()
    ensures InPhase(TMPFS_PLAN, 2)
  {
    var p := TMPFS_PLAN;
    assert |p| == 7;
    forall i | 0 <= i < 7
      ensures Phase(p[i]) == 2
    {
      assert p[i].ChangeMount? || p[i].Mount? || p[i].Chdir? || p[i].Mkdir? || p[i].PivotRoot?;
    }
  }

  lemma ChildPlanSplits(nsenter: C.NamespaceSet, unshare: C.NamespaceSet, uidMaps: seq<C.IdMap>,
                        gidMaps: seq<C.IdMap>, sandboxMnt: bool, callbacks: seq<K.Callback>, pid: nat)
    ensures ChildPlan(nsenter, unshare, uidMaps, gidMaps, sandboxMnt, callbacks, pid)
      == SetupPlan(nsenter, unshare, uidMaps, gidMaps, sandboxMnt, pid) + Invocations(callbacks)
  {
    var a, b, c := SetPlan(nsenter), SetPlan(unshare), IdMapStep(uidMaps, gidMaps, pid);
    var d, e := TmpfsStep(sandboxMnt), Invocations(callbacks);
    Reassociate(a, b, c, d, e);
  }

  lemma Reassociate<T>(a: seq<T>, b: seq<T>, c: seq<T>, d: seq<T>, e: seq<T>)
    ensures a + (b + (c + (d + e))) == a + b + c + d + e
    ensures a + b + c + (d + e) == a + b + c + d + e
  {
  }

  /** Every call at or after phase `n`. */
  predicate FromPhase(plan: seq<K.Event>, n: nat) {
    forall i :: 0 <= i < |plan| ==> n <= Phase(plan[i])
  }

  /** Calls of one phase put before sorted calls of that phase or later keep the order. */
  lemma PrependPhase(x: seq<K.Event>, n: nat, y: seq<K.Event>)
    requires InPhase(x, n) && PhaseSorted(y) && FromPhase(y, n)
    ensures PhaseSorted(x + y) && FromPhase(x + y, n)
  {
    forall i | 0 <= i < |x + y|
      ensures Phase((x + y)[i]) == if i < |x| then n else Phase(y[i - |x|])
    {
    }
  }

  /** What runs of a phase-sorted plan is phase-sorted: it is a prefix of the plan. */
  lemma RunKeepsPhaseOrder(refused: map<K.Event, int>, plan: seq<K.Event>)
    requires PhaseSorted(plan)
    ensures PhaseSorted(K.Run(refused, plan))
  {
    var done := K.Run(refused, plan);
    assert forall i :: 0 <= i < |done| ==> done[i] == plan[i];
  }

  lemma IdMapStepInPhase(uidMaps: seq<C.IdMap>, gidMaps: seq<C.IdMap>, pid: nat)
    ensures InPhase(IdMapStep(uidMaps, gidMaps, pid), 1)
  {
  }

  lemma TmpfsStepInPhase(sandboxMnt: bool)
    ensures InPhase(TmpfsStep(sandboxMnt), 2)
  {
    TmpfsPlanInPhase();
  }

  /** The setup calls, in four phase-pure parts. */
  lemma SetupPartsInPhase(nsenter: C.NamespaceSet, unshare: C.NamespaceSet, uidMaps: seq<C.IdMap>,
                          gidMaps: seq<C.IdMap>, sandboxMnt: bool, pid: nat)
    ensures InPhase(SetPlan(nsenter), 0) && InPhase(SetPlan(unshare), 0)
    ensures InPhase(IdMapStep(uidMaps, gidMaps, pid), 1) && InPhase(TmpfsStep(sandboxMnt), 2)
  {
    PlanFromInPhase(nsenter, 0);
    PlanFromInPhase(unshare, 0);
    IdMapStepInPhase(uidMaps, gidMaps, pid);
    TmpfsStepInPhase(sandboxMnt);
  }

  /** Five phase-pure parts in phase order make a phase-sorted whole. */
  lemma PartsPhaseSorted(a1: seq<K.Event>, a2: seq<K.Event>, b: seq<K.Event>, c: seq<K.Event>, d: seq<K.Event>)
    requires InPhase(a1, 0) && InPhase(a2, 0) && InPhase(b, 1) && InPhase(c, 2) && InPhase(d, 3)
    ensures PhaseSorted(a1 + (a2 + (b + (c + d))))
  {
    PrependPhase(d, 3, []);
    assert d + [] == d;
    PrependPhase(c, 2, d);
    PrependPhase(b, 1, c + d);
    PrependPhase(a2, 0, b + (c + d));
    PrependPhase(a1, 0, a2 + (b + (c + d)));
  }

  /**
   * The child's calls come in phases: namespace calls, then id-map writes,
   * then the mount calls of the tmpfs root, then the callbacks. So the user
   * namespace exists before its maps are written and the maps are written
   * before the mounts (as core.rs:157-160 requires), and callbacks run last.
   * The same holds of every prefix, in particular of what actually runs.
   */
  lemma ChildPlanIsPhaseSorted(nsenter: C.NamespaceSet, unshare: C.NamespaceSet, uidMaps: seq<C.IdMap>,
                               gidMaps: seq<C.IdMap>, sandboxMnt: bool, callbacks: seq<K.Callback>, pid: nat,
                               refused: map<K.Event, int>)
    ensures PhaseSorted(ChildPlan(nsenter, unshare, uidMaps, gidMaps, sandboxMnt, callbacks, pid))
    ensures PhaseSorted(K.Run(refused, ChildPlan(nsenter, unshare, uidMaps, gidMaps, sandboxMnt, callbacks, pid)))
  {
    SetupPartsInPhase(nsenter, unshare, uidMaps, gidMaps, sandboxMnt, pid);
    PartsPhaseSorted(SetPlan(nsenter), SetPlan(unshare), IdMapStep(uidMaps, gidMaps, pid),
                     TmpfsStep(sandboxMnt), Invocations(callbacks));
    RunKeepsPhaseOrder(refused, ChildPlan(nsenter, unshare, uidMaps, gidMaps, sandboxMnt, callbacks, pid));
  }

  /** No part of four setup parts is a callback invocation. */
  lemma SetupHasNoInvoke(a1: seq<K.Event>, a2: seq<K.Event>, b: seq<K.Event>, c: seq<K.Event>)
    requires InPhase(a1, 0) && InPhase(a2, 0) && InPhase(b, 1) && InPhase(c, 2)
    ensures forall e :: e in a1 + a2 + b + c ==> !e.Invoke?
  {
    forall e | e in a1 + a2 + b + c
      ensures !e.Invoke?
    {
      assert e in a1 || e in a2 || e in b || e in c;
    }
  }

  /** What runs of a plan is drawn from the plan. */
  lemma RunIsFromPlan(refused: map<K.Event, int>, plan: seq<K.Event>)
    ensures forall e :: e in K.Run(refused, plan) ==> e in plan
  {
    var done := K.Run(refused, plan);
    assert forall i :: 0 <= i < |done| ==> done[i] == plan[i];
  }

  /**
   * The callbacks run only after the whole setup succeeded, then all of
   * them, once each, in the order they were added; if any setup call fails
   * no callback runs.
   */
  lemma CallbacksRunAfterSetup(nsenter: C.NamespaceSet, unshare: C.NamespaceSet, uidMaps: seq<C.IdMap>,
                               gidMaps: seq<C.IdMap>, sandboxMnt: bool, callbacks: seq<K.Callback>, pid: nat,
                               refused: map<K.Event, int>)
    ensures var setup := SetupPlan(nsenter, unshare, uidMaps, gidMaps, sandboxMnt, pid);
      var done := K.Run(refused, ChildPlan(nsenter, unshare, uidMaps, gidMaps, sandboxMnt, callbacks, pid));
      (K.Completes(refused, setup) ==> done == setup + Invocations(callbacks))
      && (!K.Completes(refused, setup) ==> done == K.Run(refused, setup) && forall e :: e in done ==> !e.Invoke?)
  {
    var setup := SetupPlan(nsenter, unshare, uidMaps, gidMaps, sandboxMnt, pid);
    ChildPlanSplits(nsenter, unshare, uidMaps, gidMaps, sandboxMnt, callbacks, pid);
    K.RunAppend(refused, setup, Invocations(callbacks));
    InvocationsComplete(refused, callbacks);
    SetupPartsInPhase(nsenter, unshare, uidMaps, gidMaps, sandboxMnt, pid);
    SetupHasNoInvoke(SetPlan(nsenter), SetPlan(unshare), IdMapStep(uidMaps, gidMaps, pid), TmpfsStep(sandboxMnt));
    RunIsFromPlan(refused, setup);
  }

  /** The exit status of a child whose run of `plan` ends by returning the callbacks' value or by panicking. */
  function ChildEnd(refused: map<K.Event, int>, plan: seq<K.Event>, callbacks: seq<K.Callback>, pid: nat): K.WaitStatus {
    if K.Completes(refused, plan) then K.ExitedWith(pid, LastValue(callbacks)) else K.Aborted(pid)
  }

  // ---- The engine ----

  class WrapCore {
    var process: W.Option<C.Process>
    var root: W.Option<C.Root>
    var mounts: seq<C.Mount>
    var uidMaps: seq<C.IdMap>
    var gidMaps: seq<C.IdMap>
    var callbacks: seq<K.Callback>
    var namespaceNsenter: C.NamespaceSet
    var namespaceUnshare: C.NamespaceSet
    var sandboxMnt: bool

    /** A configuration with the given namespace sets, id maps, callbacks and sandbox choice. */
    constructor (nsenter: C.NamespaceSet, unshare: C.NamespaceSet, uidMaps: seq<C.IdMap>,
                 gidMaps: seq<C.IdMap>, callbacks: seq<K.Callback>, sandboxMnt: bool)
      ensures process == W.None && root == W.None && mounts == []
      ensures namespaceNsenter == nsenter && namespaceUnshare == unshare
      ensures this.uidMaps == uidMaps && this.gidMaps == gidMaps
      ensures this.callbacks == callbacks && this.sandboxMnt == sandboxMnt
    {
      process, root, mounts := W.None, W.None, [];
      namespaceNsenter, namespaceUnshare := nsenter, unshare;
      this.uidMaps, this.gidMaps, this.callbacks, this.sandboxMnt := uidMaps, gidMaps, callbacks, sandboxMnt;
    }

    /** The copy of the configuration the child gets: clone(2) without CLONE_VM copies memory. */
    constructor Copy(other: WrapCore)
      ensures process == other.process && root == other.root && mounts == other.mounts
      ensures namespaceNsenter == other.namespaceNsenter && namespaceUnshare == other.namespaceUnshare
      ensures uidMaps == other.uidMaps && gidMaps == other.gidMaps
      ensures callbacks == other.callbacks && sandboxMnt == other.sandboxMnt
    {
      process, root, mounts := other.process, other.root, other.mounts;
      namespaceNsenter, namespaceUnshare := other.namespaceNsenter, other.namespaceUnshare;
      uidMaps, gidMaps, callbacks, sandboxMnt := other.uidMaps, other.gidMaps, other.callbacks, other.sandboxMnt;
    }

    /** The child's plan for this configuration in process `pid`. */
    function Plan(pid: nat): seq<K.Event>
      reads this
    {
      ChildPlan(namespaceNsenter, namespaceUnshare, uidMaps, gidMaps, sandboxMnt, callbacks, pid)
    }

    /**
     * `apply_namespace_item`: the call for one kind; a failure panics. Made
     * as the next calls of a plan `whole`, it carries the run of `whole` on:
     * either `rest` is what remains of it, or the log holds its whole run.
     */
    static method ApplyNamespaceItem(t: K.Task, item: C.NamespaceItem, flag: bv32,
                                     ghost whole: seq<K.Event>, ghost start: seq<K.Event>, ghost rest: seq<K.Event>)
      returns (ok: bool)
      requires K.Pending(t.refused, whole, start, t.log, ItemPlan(item, flag) + rest)
      modifies t`log
      ensures t.log == old(t.log) + K.Run(t.refused, ItemPlan(item, flag))
      ensures ok <==> K.Completes(t.refused, ItemPlan(item, flag))
      ensures ok ==> K.Pending(t.refused, whole, start, t.log, rest)
      ensures !ok ==> t.log == start + K.Run(t.refused, whole) && !K.Completes(t.refused, whole)
    {
      match item {
        case None =>
          ok := true;
        case Unshare =>
          var errno := t.Call(K.Unshare(flag));
          ok := errno.None?;
        case Enter(fd) =>
          var errno := t.Call(K.Setns(fd, flag));
          ok := errno.None?;
      }
      K.PendingThen(t.refused, whole, start, old(t.log), ItemPlan(item, flag), rest, t.log, ok);
    }

    /** The seven calls of `apply_nsenter` / `apply_unshare`, in their fixed order, stopping at the first panic. */
    static method ApplyNamespaceSet(t: K.Task, s: C.NamespaceSet) returns (ok: bool)
      modifies t`log
      ensures t.log == old(t.log) + K.Run(t.refused, SetPlan(s))
      ensures ok <==> K.Completes(t.refused, SetPlan(s))
    {
      ghost var start, whole := t.log, SetPlan(s);
      SetPlanByFields(s);
      K.PendingStart(t.refused, whole, start);
      ok := ApplyNamespaceItem(t, s.user, U.CLONE_NEWUSER, whole, start, PlanFrom(s, 1));
      if !ok { return; }
      ok := ApplyNamespaceItem(t, s.mount, U.CLONE_NEWNS, whole, start, PlanFrom(s, 2));
      if !ok { return; }
      ok := ApplyNamespaceItem(t, s.cgroup, U.CLONE_NEWCGROUP, whole, start, PlanFrom(s, 3));
      if !ok { return; }
      ok := ApplyNamespaceItem(t, s.uts, U.CLONE_NEWUTS, whole, start, PlanFrom(s, 4));
      if !ok { return; }
      ok := ApplyNamespaceItem(t, s.ipc, U.CLONE_NEWIPC, whole, start, PlanFrom(s, 5));
      if !ok { return; }
      ok := ApplyNamespaceItem(t, s.pid, U.CLONE_NEWPID, whole, start, PlanFrom(s, 6));
      if !ok { return; }
      ok := ApplyNamespaceItem(t, s.network, U.CLONE_NEWNET, whole, start, PlanFrom(s, 7));
      if ok {
        K.PendingDone(t.refused, whole, start, t.log);
      }
    }

    /** `apply_nsenter`: the join-intent set. */
    method ApplyNsenter(t: K.Task) returns (ok: bool)
      modifies t`log
      ensures t.log == old(t.log) + K.Run(t.refused, SetPlan(namespaceNsenter))
      ensures ok <==> K.Completes(t.refused, SetPlan(namespaceNsenter))
    {
      ok := ApplyNamespaceSet(t, namespaceNsenter);
    }

    /** `apply_unshare`: the create-intent set. */
    method ApplyUnshare(t: K.Task) returns (ok: bool)
      modifies t`log
      ensures t.log == old(t.log) + K.Run(t.refused, SetPlan(namespaceUnshare))
      ensures ok <==> K.Completes(t.refused, SetPlan(namespaceUnshare))
    {
      ok := ApplyNamespaceSet(t, namespaceUnshare);
    }

    /** `set_id_map` as written: the gid_map content is built from `uid_maps`. */
    method SetIdMap(t: K.Task) returns (ok: bool)
      modifies t`log
      ensures t.log == old(t.log) + K.Run(t.refused, F.SetIdMapPlan(t.pid, uidMaps, uidMaps))
      ensures ok <==> K.Completes(t.refused, F.SetIdMapPlan(t.pid, uidMaps, uidMaps))
    {
      ok := F.WriteIdMaps(t, uidMaps, uidMaps);
    }

    /** `set_id_map` as intended: gid_map built from `gid_maps`, so each file reads back as its own list. */
    method SetIdMapIntended(t: K.Task) returns (ok: bool)
      modifies t`log
      ensures t.log == old(t.log) + K.Run(t.refused, F.SetIdMapPlan(t.pid, uidMaps, gidMaps))
      ensures ok <==> K.Completes(t.refused, F.SetIdMapPlan(t.pid, uidMaps, gidMaps))
      ensures F.Parse(F.SetIdMapPlan(t.pid, uidMaps, gidMaps)[0].data) == W.Some(uidMaps)
      ensures F.Parse(F.SetIdMapPlan(t.pid, uidMaps, gidMaps)[2].data) == W.Some(gidMaps)
    {
      F.SetIdMapPlanOrder(t.pid, uidMaps, gidMaps);
      ok := F.WriteIdMaps(t, uidMaps, gidMaps);
    }

    /**
     * `execute_callbacks`: pops the queue from the front as many times as it
     * had entries, running each callback; returns the last value, 0 if none.
     */
    method ExecuteCallbacks(t: K.Task) returns (ret: int)
      modifies this`callbacks, t`log
      ensures callbacks == []
      ensures t.log == old(t.log) + Invocations(old(callbacks))
      ensures ret == LastValue(old(callbacks))
    {
      ret := InvokeAll(t, callbacks);
      callbacks := [];
    }

    /** `set_up_tmpfs_cwd`: the seven calls of TMPFS_PLAN, stopping at the first panic. */
    method SetUpTmpfsCwd(t: K.Task) returns (ok: bool)
      modifies t`log
      ensures t.log == old(t.log) + K.Run(t.refused, TMPFS_PLAN)
      ensures ok <==> K.Completes(t.refused, TMPFS_PLAN)
    {
      ghost var p := TMPFS_PLAN;
      ghost var start := t.log;
      assert p[..0] == [];
      ok := t.Step(K.ChangeMount("/", K.MS_SLAVE | K.MS_REC), p, 0, start);
      if !ok { return; }
      ok := t.Step(K.Mount("tmpfs", TMP_PATH, "tmpfs", K.MS_NODEV | K.MS_NOSUID, ""), p, 1, start);
      if !ok { return; }
      ok := t.Step(K.Chdir(TMP_PATH), p, 2, start);
      if !ok { return; }
      ok := t.Step(K.Mkdir("/tmp/newroot", DIR_MODE), p, 3, start);
      if !ok { return; }
      ok := t.Step(K.Mkdir("oldroot", DIR_MODE), p, 4, start);
      if !ok { return; }
      ok := t.Step(K.Mount("newroot", "newroot", "", K.MS_SILENT | K.MS_BIND | K.MS_REC, ""), p, 5, start);
      if !ok { return; }
      ok := t.Step(K.PivotRoot(TMP_PATH, "oldroot"), p, 6, start);
      assert p[..7] == p;
    }

    /**
     * `run_child`: panics unless running in the cloned child; otherwise
     * carries out the child's plan, stopping at the first failing call, and
     * on success returns the callbacks' value. The id maps are written by
     * `set_id_map` as written, so gid_map gets the uid list.
     */
    method RunChild(t: K.Task) returns (ok: bool, ret: int)
      modifies this`callbacks, t`log
      ensures !old(t.isChild) ==> !ok && t.log == old(t.log)
      ensures old(t.isChild) ==> t.log == old(t.log) + K.Run(t.refused, old(Plan(t.pid)))
      ensures ok <==> old(t.isChild) && K.Completes(t.refused, old(Plan(t.pid)))
      ensures ok ==> ret == LastValue(old(callbacks)) && callbacks == []
    {
      ret := 0;
      if !t.isChild {
        return false, 0;
      }
      ghost var whole := Plan(t.pid);
      ghost var a := SetPlan(namespaceNsenter);
      ghost var b := SetPlan(namespaceUnshare);
      ghost var c := IdMapStep(uidMaps, gidMaps, t.pid);
      ghost var d := TmpfsStep(sandboxMnt);
      ghost var e := Invocations(callbacks);
      ghost var r3 := d + e;
      ghost var r2 := c + r3;
      ghost var r1 := b + r2;
      assert whole == a + r1;
      ghost var start := t.log;
      K.PendingStart(t.refused, whole, start);
      ok := ApplyNsenter(t);
      K.PendingThen(t.refused, whole, start, start, a, r1, t.log, ok);
      if !ok { return; }
      ghost var log1 := t.log;
      ok := ApplyUnshare(t);
      K.PendingThen(t.refused, whole, start, log1, b, r2, t.log, ok);
      if !ok { return; }
      ghost var log2 := t.log;
      if |uidMaps| + |gidMaps| > 0 {
        ok := SetIdMap(t);
        K.PendingThen(t.refused, whole, start, log2, c, r3, t.log, ok);
        if !ok { return; }
      } else {
        K.PendingSkip(t.refused, whole, start, log2, c, r3);
      }
      ghost var log3 := t.log;
      if sandboxMnt {
        ok := SetUpTmpfsCwd(t);
        K.PendingThen(t.refused, whole, start, log3, d, e, t.log, ok);
        if !ok { return; }
      } else {
        K.PendingSkip(t.refused, whole, start, log3, d, e);
      }
      ghost var log4 := t.log;
      InvocationsComplete(t.refused, callbacks);
      ret := ExecuteCallbacks(t);
      K.PendingLast(t.refused, whole, start, log4, e, t.log);
    }

    /**
     * The closure `spwan` hands to clone(2), run by the child on its copy of
     * the configuration: it sets `IS_CHILD` and runs `run_child`; the value
     * returned, or the panic, becomes the child's exit status.
     */
    method ChildMain(child: K.Task) returns (status: K.WaitStatus)
      requires child.log == []
      modifies this`callbacks, child`log, child`isChild
      ensures child.log == K.Run(child.refused, old(Plan(child.pid)))
      ensures status == ChildEnd(child.refused, old(Plan(child.pid)), old(callbacks), child.pid)
    {
      child.isChild := true;
      var ok, ret := RunChild(child);
      status := if ok then K.ExitedWith(child.pid, ret) else K.Aborted(child.pid);
    }

    /**
     * The new process `pid` that clone(2) made of `t`: it starts with copies
     * of `t` and of this configuration, runs the closure to its end, and the
     * kernel keeps its calls and its exit status for `t`.
     */
    method RunCloned(t: K.Task, pid: nat)
      modifies t`exits, t`childLogs
      ensures t.childLogs == old(t.childLogs)[pid := K.Run(t.refused, Plan(pid))]
      ensures t.exits == old(t.exits)[pid := ChildEnd(t.refused, Plan(pid), callbacks, pid)]
    {
      var child := new K.Task.Fork(t, pid);
      var image := new WrapCore.Copy(this);
      ghost var plan := Plan(pid);
      assert image.Plan(pid) == plan && image.callbacks == callbacks;
      var status := image.ChildMain(child);
      t.ChildEnded(pid, child.log, status);
      assert Plan(pid) == plan;
    }

    /** Allocates the child stack and issues clone(2): the part of `spwan` before the child runs. */
    method CloneStep(t: K.Task) returns (res: W.Result<nat, E.Error>)
      modifies t`log, t`nextPid, t`brk
      ensures var e := K.Clone(U.StackTop(old(t.brk) + U.STACK_SIZE), U.CloneWord(0, W.Some(U.SIGCHLD_WORD)));
        t.log == old(t.log) + [e] && (res.Err? <==> K.Fails(t.refused, e))
        && (res.Err? ==> res.error == E.OsErrno(t.refused[e]))
      ensures res.Ok? ==> res.value == old(t.nextPid)
    {
      var stack := t.Alloc(U.STACK_SIZE);
      res := U.Clone(t, stack, U.STACK_SIZE, 0, W.Some(U.SIGCHLD_WORD));
    }

    /**
     * `spwan`: allocates the child's stack and clones with no namespace
     * flags and SIGCHLD as exit signal. The child sets `IS_CHILD` in its own
     * copy of memory and runs `run_child` on its own copy of the
     * configuration; the kernel keeps its calls and its exit status. The
     * parent's configuration is unchanged.
     */
    method Spawn(t: K.Task) returns (r: W.Result<NsChild.Child, E.Error>)
      modifies t`log, t`nextPid, t`brk, t`exits, t`childLogs
      ensures var e := K.Clone(U.StackTop(old(t.brk) + U.STACK_SIZE), U.CloneWord(0, W.Some(U.SIGCHLD_WORD)));
        t.log == old(t.log) + [e] && (r.Err? <==> K.Fails(t.refused, e))
        && (r.Err? ==> r.error == E.OsErrno(t.refused[e]) && t.exits == old(t.exits) && t.childLogs == old(t.childLogs))
      ensures r.Ok? ==> var pid := old(t.nextPid);
        r.value == NsChild.Child(pid)
        && t.childLogs == old(t.childLogs)[pid := K.Run(t.refused, Plan(pid))]
        && t.exits == old(t.exits)[pid := ChildEnd(t.refused, Plan(pid), callbacks, pid)]
    {
      var res := CloneStep(t);
      if res.Err? {
        r := W.Err(res.error);
        return;
      }
      RunCloned(t, res.value);
      r := W.Ok(NsChild.Child(res.value));
    }
  }

  /**
   * `set_id_map` as written (core.rs and cmd.rs alike) writes the uid list
   * to gid_map: whenever the two lists differ, the gid_map it writes reads
   * back as the uid list, not the gid list, and differs from what the
   * intended call writes.
   */
  lemma SetIdMapAsWrittenIgnoresGidMaps(pid: nat, uidMaps: seq<C.IdMap>, gidMaps: seq<C.IdMap>)
    requires uidMaps != gidMaps
    ensures F.Parse(F.SetIdMapPlan(pid, uidMaps, uidMaps)[2].data) == W.Some(uidMaps)
    ensures F.Parse(F.SetIdMapPlan(pid, uidMaps, gidMaps)[2].data) == W.Some(gidMaps)
    ensures F.SetIdMapPlan(pid, uidMaps, uidMaps)[2] != F.SetIdMapPlan(pid, uidMaps, gidMaps)[2]
  {
    F.SetIdMapPlanOrder(pid, uidMaps, uidMaps);
    F.SetIdMapPlanOrder(pid, uidMaps, gidMaps);
  }

  /**
   * The `Current` preset of the `tmpfs_root` test of lib.rs, for a caller
   * with uid 1000 and gid 100: gid_map maps 1000 to itself instead of 100.
   */
  lemma CurrentPresetGidMapExample(pid: nat)
    ensures var u, g := [C.IdMap(1000, 1000, 1)], [C.IdMap(100, 100, 1)];
      F.Parse(F.SetIdMapPlan(pid, u, u)[2].data) == W.Some(u)
      && F.Parse(F.SetIdMapPlan(pid, u, g)[2].data) == W.Some(g)
  {
    SetIdMapAsWrittenIgnoresGidMaps(pid, [C.IdMap(1000, 1000, 1)], [C.IdMap(100, 100, 1)]);
  }

  /** The calls for each position of the launcher's order, by field. */
  lemma ItemAtFields(s: C.NamespaceSet)
    ensures ItemAt(s, 0) == ItemPlan(s.user, U.CLONE_NEWUSER)
    ensures ItemAt(s, 1) == ItemPlan(s.mount, U.CLONE_NEWNS)
    ensures ItemAt(s, 2) == ItemPlan(s.cgroup, U.CLONE_NEWCGROUP)
    ensures ItemAt(s, 3) == ItemPlan(s.uts, U.CLONE_NEWUTS)
    ensures ItemAt(s, 4) == ItemPlan(s.ipc, U.CLONE_NEWIPC)
    ensures ItemAt(s, 5) == ItemPlan(s.pid, U.CLONE_NEWPID)
    ensures ItemAt(s, 6) == ItemPlan(s.network, U.CLONE_NEWNET)
  {
  }
}
