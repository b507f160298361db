/**
 * The public launcher of crates/nswrap/src/lib.rs, `Wrap`, with the child
 * side of crates/nswrap/src/cmd.rs. The builder methods record the
 * configuration; `Spawn` clones a child with CLONE_NEWUSER | CLONE_NEWNS
 * and the child, on its own copy of the configuration, writes the id maps
 * if there are any, builds the tmpfs root if asked to, and runs the
 * callbacks.
 */
module NsWrap {
  import W = Wrappers
  import opened Text
  import C = NsConfig
  import K = Kernel
  import U = NsUtil
  import F = IdMapFile
  import E = NsError
  import Core = NsCore
  import NsChild

  /**
   * A namespace to set up for the child: a new one of kind `typ`, or the
   * one `fd` refers to. lib.rs uses it as `config::Namespace`, which
   * config.rs does not declare; this is the shape lib.rs builds.
   */
  datatype Namespace = Namespace(typ: C.NamespaceType, fd: W.Option<int>)

  /** Every field of a `Wrap`, as one value. */
  datatype WrapState = WrapState(
    process: W.Option<C.Process>,
    root: W.Option<C.Root>,
    namespaces: seq<Namespace>,
    mounts: seq<C.Mount>,
    uidMaps: seq<C.IdMap>,
    gidMaps: seq<C.IdMap>,
    callbacks: seq<K.Callback>,
    sandboxMnt: bool,
    inSubprocess: bool)

  /** `#[derive(Default)]`: nothing configured. */
  const DEFAULT_STATE: WrapState := WrapState(W.None, W.None, [], [], [], [], [], false, false)

  // ---- Callback order ----

  function Reverse<T>(s: seq<T>): (r: seq<T>)
    ensures |r| == |s|
    ensures forall i :: 0 <= i < |s| ==> r[i] == s[|s| - 1 - i]
  {
    if s == [] then [] else Reverse(s[1..]) + [s[0]]
  }

  /**
   * Draining the list from the back (cmd.rs) runs the callbacks in the
   * reverse of the order they were added, and returns the value of the
   * first one added.
   */
  lemma PopOrder(cbs: seq<K.Callback>)
    ensures Core.Invocations(Reverse(cbs)) == Reverse(Core.Invocations(cbs))
    ensures cbs != [] ==> Core.LastValue(Reverse(cbs)) == cbs[0].value
  {
  }

  /**
   * So the first callback run is the last one added, not the first one as
   * lib.rs promises.
   */
  lemma PopOrderRunsLastAddedFirst(cbs: seq<K.Callback>)
    requires |cbs| >= 1
    ensures Core.Invocations(Reverse(cbs))[0] == K.Invoke(cbs[|cbs| - 1].id)
    ensures Core.Invocations(cbs)[0] == K.Invoke(cbs[0].id)
  {
  }

  /** Two callbacks returning 1 and then 2: popped from the back, 2's runs first and the result is 1. */
  lemma PopOrderExample()
    ensures var cbs := [K.Callback(0, 1), K.Callback(1, 2)];
      Core.Invocations(Reverse(cbs)) == [K.Invoke(1), K.Invoke(0)] && Core.LastValue(Reverse(cbs)) == 1
      && Core.Invocations(cbs) == [K.Invoke(0), K.Invoke(1)] && Core.LastValue(cbs) == 2
  {
    var cbs := [K.Callback(0, 1), K.Callback(1, 2)];
    assert Reverse(cbs) == [K.Callback(1, 2), K.Callback(0, 1)];
  }

  // ---- The child's plan ----

  /** `set_up_tmpfs_cwd` of cmd.rs, call by call. */
  const CMD_TMPFS_PLAN: seq<K.Event> := [
    K.Mount("", "/", "", K.MS_SILENT | K.MS_SLAVE | K.MS_REC, ""),
    K.Mount("tmpfs", Core.TMP_PATH, "tmpfs", K.MS_NODEV | K.MS_NOSUID, ""),
    K.Chdir(Core.TMP_PATH),
    K.Mkdir("/tmp/newroot", Core.DIR_MODE),
    K.Mkdir("oldroot", Core.DIR_MODE),
    K.Mount("newroot", "newroot", "", K.MS_SILENT | K.MS_MGC_VAL | K.MS_BIND | K.MS_REC, ""),
    K.PivotRoot(Core.TMP_PATH, "oldroot")]

  /**
   * cmd.rs spells two of the mount calls differently from core.rs (a
   * `mount` with empty source and type instead of `change_mount`, and the
   * old magic number in the bind flags), but the kernel reads every call
   * of both plans as the same request.
   */
  lemma CmdTmpfsPlanMatchesCore()
    ensures |CMD_TMPFS_PLAN| == |Core.TMPFS_PLAN|
    ensures forall i :: 0 <= i < |CMD_TMPFS_PLAN| ==>
      K.RequestOf(CMD_TMPFS_PLAN[i]) == K.RequestOf(Core.TMPFS_PLAN[i])
    ensures forall i :: 0 <= i < |CMD_TMPFS_PLAN| ==>
      Core.TMPFS_PLAN[i].Mount? || Core.TMPFS_PLAN[i].ChangeMount? || CMD_TMPFS_PLAN[i] == Core.TMPFS_PLAN[i]
  {
    var p, q := CMD_TMPFS_PLAN, Core.TMPFS_PLAN;
    assert K.RequestOf(p[0]) == K.Propagation("/", K.MS_SLAVE, true) == K.RequestOf(q[0]);
    assert K.RequestOf(p[5]) == K.Bind("newroot", "newroot", true) == K.RequestOf(q[5]);
    forall i | 0 <= i < 7
      ensures K.RequestOf(p[i]) == K.RequestOf(q[i])
    {
    }
  }

  function CmdTmpfsStep(sandboxMnt: bool): seq<K.Event> {
    if sandboxMnt then CMD_TMPFS_PLAN else []
  }

  /**
   * What the closure `spawn` hands to clone(2) sets out to do in process
   * `pid`, in order: the id maps (only if there are entries, gid_map built
   * from the uid list as cmd.rs writes it), the tmpfs root (only if asked
   * for), the callbacks popped from the back. No namespace is joined or
   * created beyond the clone flags.
   */
  function WrapPlan(uidMaps: seq<C.IdMap>, gidMaps: seq<C.IdMap>, sandboxMnt: bool,
                    callbacks: seq<K.Callback>, pid: nat): seq<K.Event>
  {
    Core.IdMapStep(uidMaps, gidMaps, pid) + (CmdTmpfsStep(sandboxMnt) + Core.Invocations(Reverse(callbacks)))
  }

  /** The closure's plan as intended: gid_map from the gid list, callbacks in the order added. */
  function WrapPlanIntended(uidMaps: seq<C.IdMap>, gidMaps: seq<C.IdMap>, sandboxMnt: bool,
                            callbacks: seq<K.Callback>, pid: nat): seq<K.Event>
  {
    Core.IdMapStepIntended(uidMaps, gidMaps, pid) + (CmdTmpfsStep(sandboxMnt) + Core.Invocations(callbacks))
  }

  /**
   * The closure's plan as written and as intended have the same setup calls
   * but for the gid_map write, which carries the uid list as written, and
   * end in the same callbacks run in opposite orders.
   */
  lemma WrapPlanDiffersInGidMapAndOrder(uidMaps: seq<C.IdMap>, gidMaps: seq<C.IdMap>, sandboxMnt: bool,
                                        callbacks: seq<K.Callback>, pid: nat)
    ensures var p := WrapPlan(uidMaps, gidMaps, sandboxMnt, callbacks, pid);
      var q := WrapPlanIntended(uidMaps, gidMaps, sandboxMnt, callbacks, pid);
      var n := |p| - |callbacks|;
      |p| == |q| && 0 <= n
      && (forall i :: 0 <= i < n && p[i] != q[i] ==>
            p[i] == K.WriteFile(F.ProcPath(pid, "gid_map"), F.Serialize(uidMaps))
            && q[i] == K.WriteFile(F.ProcPath(pid, "gid_map"), F.Serialize(gidMaps)))
      && p[n..] == Reverse(q[n..])
  {
    var c, c' := Core.IdMapStep(uidMaps, gidMaps, pid), Core.IdMapStepIntended(uidMaps, gidMaps, pid);
    Core.IdMapStepsDiffer(uidMaps, gidMaps, pid);
    PopOrder(callbacks);
    HeadsDiffer(c, c', CmdTmpfsStep(sandboxMnt), Core.Invocations(Reverse(callbacks)), Core.Invocations(callbacks));
  }

  /** Two sequences with the same middle differ in their heads only where the heads do. */
  lemma HeadsDiffer<T>(c: seq<T>, c': seq<T>, d: seq<T>, e: seq<T>, e': seq<T>)
    requires |c| == |c'| && |e| == |e'|
    ensures var p, q := c + (d + e), c' + (d + e');
      |p| == |q| && p[|c| + |d|..] == e && q[|c| + |d|..] == e'
      && forall i :: 0 <= i < |c| + |d| && p[i] != q[i] ==> i < |c| && p[i] == c[i] && q[i] == c'[i]
  {
    var p, q := c + (d + e), c' + (d + e');
    assert p == c + d + e && q == c' + d + e';
  }

  /** The clone flags word of `spawn`: CLONE_NEWUSER | CLONE_NEWNS with SIGCHLD as exit signal. */
  const SPAWN_WORD: bv32 := U.CloneWord(U.CLONE_NEWUSER | U.CLONE_NEWNS, W.Some(U.SIGCHLD_WORD))

  /** The kernel reads a new user and mount namespace and SIGCHLD from it, whatever namespaces were configured. */
  lemma SpawnWordMeaning()
    ensures SPAWN_WORD & U.CSIGNAL == U.SIGCHLD_WORD
    ensures SPAWN_WORD & !U.CSIGNAL == U.CLONE_NEWUSER | U.CLONE_NEWNS
    ensures SPAWN_WORD & U.CLONE_NEWPID == 0 && SPAWN_WORD & U.CLONE_NEWNET == 0
  {
    U.CloneWordSplits(U.CLONE_NEWUSER | U.CLONE_NEWNS, W.Some(U.SIGCHLD_WORD));
  }

  /** The call that clones the child for a heap break `brk`. */
  function SpawnClone(brk: nat): K.Event {
    K.Clone(U.StackTop(brk + U.STACK_SIZE), SPAWN_WORD)
  }

  // ---- The builder ----

  class Wrap {
    var process: W.Option<C.Process>
    var root: W.Option<C.Root>
    var namespaces: seq<Namespace>
    var mounts: seq<C.Mount>
    var uidMaps: seq<C.IdMap>
    var gidMaps: seq<C.IdMap>
    var callbacks: seq<K.Callback>
    var sandboxMnt: bool
    var inSubprocess: bool

    function State(): WrapState
      reads this
    {
      WrapState(process, root, namespaces, mounts, uidMaps, gidMaps, callbacks, sandboxMnt, inSubprocess)
    }

    /** The child's plan for this configuration in process `pid`. */
    function Plan(pid: nat): seq<K.Event>
      reads this
    {
      WrapPlan(uidMaps, gidMaps, sandboxMnt, callbacks, pid)
    }

    /** The value the child exits with when its plan completes: the callback added first, 0 if none. */
    function ExitValue(): (v: int)
      reads this
      ensures callbacks != [] ==> v == callbacks[0].value
      ensures callbacks == [] ==> v == 0
    {
      PopOrder(callbacks);
      Core.LastValue(Reverse(callbacks))
    }

    /** `Wrap::new`: the default configuration. */
    constructor ()
      ensures State() == DEFAULT_STATE
    {
      process, root, namespaces, mounts := W.None, W.None, [], [];
      uidMaps, gidMaps, callbacks, sandboxMnt, inSubprocess := [], [], [], false, false;
    }

    /** `Wrap::new_cmd`: the default configuration with a default process running `program`. */
    constructor NewCmd(program: string)
      ensures State() == DEFAULT_STATE.(process := W.Some(C.DEFAULT_PROCESS.(bin := program)))
    {
      namespaces, mounts := [], [];
      uidMaps, gidMaps, callbacks, sandboxMnt, inSubprocess := [], [], [], false, false;
      root := W.None;
      process := W.Some(C.DEFAULT_PROCESS.(bin := program));
    }

    /** The child's copy of the configuration: clone(2) without CLONE_VM copies memory. */
    constructor Copy(other: Wrap)
      ensures State() == other.State()
    {
      process, root, namespaces, mounts := other.process, other.root, other.namespaces, other.mounts;
      uidMaps, gidMaps, callbacks := other.uidMaps, other.gidMaps, other.callbacks;
      sandboxMnt, inSubprocess := other.sandboxMnt, other.inSubprocess;
    }

    /** `callback`: queues one more callback, after those already queued. */
    method Callback(cb: K.Callback)
      modifies this
      ensures State() == old(State()).(callbacks := old(callbacks) + [cb])
    {
      callbacks := callbacks + [cb];
    }

    /** `add_namespace` */
    method AddNamespace(ns: Namespace)
      modifies this
      ensures State() == old(State()).(namespaces := old(namespaces) + [ns])
    {
      namespaces := namespaces + [ns];
    }

    /** `ns_new`: a new namespace of kind `typ`, no descriptor. */
    method NsNew(typ: C.NamespaceType)
      modifies this
      ensures State() == old(State()).(namespaces := old(namespaces) + [Namespace(typ, W.None)])
    {
      AddNamespace(Namespace(typ, W.None));
    }

    /** `set_process` */
    method SetProcess(p: C.Process)
      modifies this
      ensures State() == old(State()).(process := W.Some(p))
    {
      process := W.Some(p);
    }

    /** `set_root` */
    method SetRoot(r: C.Root)
      modifies this
      ensures State() == old(State()).(root := W.Some(r))
    {
      root := W.Some(r);
    }

    /** `add_mount` */
    method AddMount(m: C.Mount)
      modifies this
      ensures State() == old(State()).(mounts := old(mounts) + [m])
    {
      mounts := mounts + [m];
    }

    /** `add_uid_map` */
    method AddUidMap(m: C.IdMap)
      modifies this
      ensures State() == old(State()).(uidMaps := old(uidMaps) + [m])
    {
      uidMaps := uidMaps + [m];
    }

    /** `add_gid_map` */
    method AddGidMap(m: C.IdMap)
      modifies this
      ensures State() == old(State()).(gidMaps := old(gidMaps) + [m])
    {
      gidMaps := gidMaps + [m];
    }

    /** `uid_map(host_id, container_id, size)` */
    method UidMap(hostId: u32, containerId: u32, size: u32)
      modifies this
      ensures State() == old(State()).(uidMaps := old(uidMaps) + [C.IdMap(hostId, containerId, size)])
    {
      AddUidMap(C.IdMap(hostId, containerId, size));
    }

    /** `gid_map(host_id, container_id, size)` */
    method GidMap(hostId: u32, containerId: u32, size: u32)
      modifies this
      ensures State() == old(State()).(gidMaps := old(gidMaps) + [C.IdMap(hostId, containerId, size)])
    {
      AddGidMap(C.IdMap(hostId, containerId, size));
    }

    /**
     * `id_map_preset` in the process `t` (`get_uid`/`get_gid` are its ids):
     * `Root` maps container id 0 to the caller's id, `Current` maps the
     * caller's id to itself, each by one entry; `Auto` is `todo!()` and
     * panics, reported as `ok == false` with nothing added.
     */
    method IdMapPreset(t: K.Task, preset: C.IdMapPreset) returns (ok: bool)
      modifies this
      ensures ok <==> !preset.Auto?
      ensures preset.Root? ==> State() == old(State()).(uidMaps := old(uidMaps) + [C.IdMap(t.uid, 0, 1)],
                                                        gidMaps := old(gidMaps) + [C.IdMap(t.gid, 0, 1)])
      ensures preset.Current? ==> State() == old(State()).(uidMaps := old(uidMaps) + [C.IdMap(t.uid, t.uid, 1)],
                                                           gidMaps := old(gidMaps) + [C.IdMap(t.gid, t.gid, 1)])
      ensures preset.Auto? ==> State() == old(State())
    {
      match preset
      case Root =>
        UidMap(t.uid, 0, 1);
        GidMap(t.gid, 0, 1);
        ok := true;
      case Current =>
        UidMap(t.uid, t.uid, 1);
        GidMap(t.gid, t.gid, 1);
        ok := true;
      case Auto =>
        ok := false;
    }

    /** `sandbox_mnt` */
    method SandboxMnt(opt: bool)
      modifies this
      ensures State() == old(State()).(sandboxMnt := opt)
    {
      sandboxMnt := opt;
    }

    // ---- The child side (cmd.rs) ----

    /** `set_id_map` of cmd.rs as written: the gid_map content is built from `uid_maps`. */
    method SetIdMap(t: K.Task) returns (ok: bool)
      modifies t`log
      ensures t.log == old(t.log) + K.Run(t.refused, F.SetIdMapPlan(t.pid, uidMaps, uidMaps))
      ensures ok <==> K.Completes(t.refused, F.SetIdMapPlan(t.pid, uidMaps, uidMaps))
    {
      ok := F.WriteIdMaps(t, uidMaps, uidMaps);
    }

    /** `set_id_map` as intended: gid_map built from `gid_maps`. */
    method SetIdMapIntended(t: K.Task) returns (ok: bool)
      modifies t`log
      ensures t.log == old(t.log) + K.Run(t.refused, F.SetIdMapPlan(t.pid, uidMaps, gidMaps))
      ensures ok <==> K.Completes(t.refused, F.SetIdMapPlan(t.pid, uidMaps, gidMaps))
    {
      ok := F.WriteIdMaps(t, uidMaps, gidMaps);
    }

    /**
     * `execute_callbacks` of cmd.rs as written: after `check_subprogress`
     * (a panic outside the child), pops every callback off the back of the
     * list, running each; returns the last value run, 0 if none.
     */
    method ExecuteCallbacks(t: K.Task) returns (ok: bool, ret: int)
      modifies this`callbacks, t`log
      ensures ok <==> inSubprocess
      ensures !ok ==> callbacks == old(callbacks) && t.log == old(t.log) && ret == 0
      ensures ok ==> callbacks == [] && t.log == old(t.log) + Core.Invocations(Reverse(old(callbacks)))
      ensures ok ==> ret == Core.LastValue(Reverse(old(callbacks)))
    {
      if !inSubprocess {
        return false, 0;
      }
      ok := true;
      ret := PopAll(t);
    }

    /** The loop of cmd.rs's `execute_callbacks`: as many pops from the back as the list had entries. */
    method PopAll(t: K.Task) returns (ret: int)
      modifies this`callbacks, t`log
      ensures callbacks == [] && t.log == old(t.log) + Core.Invocations(Reverse(old(callbacks)))
      ensures ret == Core.LastValue(Reverse(old(callbacks)))
    {
      ghost var queued := callbacks;
      var n := |callbacks|;
      ret := 0;
      for i := 0 to n
        invariant callbacks == queued[..n - i]
        invariant t.log == old(t.log) + Core.Invocations(Reverse(queued[n - i..]))
        invariant ret == Core.LastValue(Reverse(queued[n - i..]))
      {
        var cb := callbacks[|callbacks| - 1];
        callbacks := callbacks[..|callbacks| - 1];
        ret := t.Invoke(cb);
        assert queued[n - i - 1..][1..] == queued[n - i..];
        assert Reverse(queued[n - i - 1..]) == Reverse(queued[n - i..]) + [cb];
      }
      assert queued[n - n..] == queued;
    }

    /**
     * `execute_callbacks` as lib.rs documents it: front to back, as core.rs
     * runs them, returning the value of the callback added last.
     */
    method ExecuteCallbacksIntended(t: K.Task) returns (ok: bool, ret: int)
      modifies this`callbacks, t`log
      ensures ok <==> inSubprocess
      ensures !ok ==> callbacks == old(callbacks) && t.log == old(t.log) && ret == 0
      ensures ok ==> callbacks == [] && t.log == old(t.log) + Core.Invocations(old(callbacks))
      ensures ok ==> ret == Core.LastValue(old(callbacks))
    {
      if !inSubprocess {
        return false, 0;
      }
      ok := true;
      ret := Core.InvokeAll(t, callbacks);
      callbacks := [];
    }

    /**
     * `set_up_tmpfs_cwd` of cmd.rs: after `check_subprogress` (a panic
     * outside the child), the seven calls of CMD_TMPFS_PLAN.
     */
    method SetUpTmpfsCwd(t: K.Task) returns (ok: bool)
      modifies t`log
      ensures !inSubprocess ==> !ok && t.log == old(t.log)
      ensures inSubprocess ==> t.log == old(t.log) + K.Run(t.refused, CMD_TMPFS_PLAN)
      ensures ok <==> inSubprocess && K.Completes(t.refused, CMD_TMPFS_PLAN)
    {
      if !inSubprocess {
        return false;
      }
      ok := TmpfsCalls(t);
    }

    /** The calls of cmd.rs's `set_up_tmpfs_cwd`, stopping at the first panic. */
    static method TmpfsCalls(t: K.Task) returns (ok: bool)
      modifies t`log
      ensures t.log == old(t.log) + K.Run(t.refused, CMD_TMPFS_PLAN)
      ensures ok <==> K.Completes(t.refused, CMD_TMPFS_PLAN)
    {
      ghost var p := CMD_TMPFS_PLAN;
      ghost var start := t.log;
      assert p[..0] == [];
      ok := t.Step(K.Mount("", "/", "", K.MS_SILENT | K.MS_SLAVE | K.MS_REC, ""), p, 0, start);
      if !ok { return; }
      ok := t.Step(K.Mount("tmpfs", Core.TMP_PATH, "tmpfs", K.MS_NODEV | K.MS_NOSUID, ""), p, 1, start);
      if !ok { return; }
      ok := t.Step(K.Chdir(Core.TMP_PATH), p, 2, start);
      if !ok { return; }
      ok := t.Step(K.Mkdir("/tmp/newroot", Core.DIR_MODE), p, 3, start);
      if !ok { return; }
      ok := t.Step(K.Mkdir("oldroot", Core.DIR_MODE), p, 4, start);
      if !ok { return; }
      ok := t.Step(K.Mount("newroot", "newroot", "", K.MS_SILENT | K.MS_MGC_VAL | K.MS_BIND | K.MS_REC, ""), p, 5, start);
      if !ok { return; }
      ok := t.Step(K.PivotRoot(Core.TMP_PATH, "oldroot"), p, 6, start);
      assert p[..7] == p;
    }

    /**
     * The closure `spawn` hands to clone(2), run by the child `t` on its
     * copy of the configuration: it sets `in_subprocess`, writes the id maps
     * if there are entries (cmd.rs's `set_id_map`, gid_map from the uid
     * list), builds the tmpfs root if `sandbox_mnt`, and returns the value
     * of cmd.rs's `execute_callbacks`, which pops the callbacks from the
     * back. A failing call panics.
     */
    method Closure(t: K.Task) returns (ok: bool, ret: int)
      modifies this`inSubprocess, this`callbacks, t`log
      ensures inSubprocess
      ensures t.log == old(t.log) + K.Run(t.refused, old(Plan(t.pid)))
      ensures ok <==> K.Completes(t.refused, old(Plan(t.pid)))
      ensures ok ==> ret == old(ExitValue()) && callbacks == []
    {
      inSubprocess := true;
      ghost var whole := Plan(t.pid);
      ghost var c := Core.IdMapStep(uidMaps, gidMaps, t.pid);
      ghost var d := CmdTmpfsStep(sandboxMnt);
      ghost var e := Core.Invocations(Reverse(callbacks));
      ghost var r := d + e;
      assert whole == c + r;
      ghost var start := t.log;
      K.PendingStart(t.refused, whole, start);
      if |uidMaps| + |gidMaps| > 0 {
        ok := SetIdMap(t);
        K.PendingThen(t.refused, whole, start, start, c, r, t.log, ok);
        if !ok { return ok, 0; }
      } else {
        K.PendingSkip(t.refused, whole, start, start, c, r);
      }
      ghost var log1 := t.log;
      if sandboxMnt {
        ok := SetUpTmpfsCwd(t);
        K.PendingThen(t.refused, whole, start, log1, d, e, t.log, ok);
        if !ok { return ok, 0; }
      } else {
        K.PendingSkip(t.refused, whole, start, log1, d, e);
      }
      ghost var log2 := t.log;
      Core.InvocationsComplete(t.refused, Reverse(callbacks));
      ok, ret := ExecuteCallbacks(t);
      K.PendingLast(t.refused, whole, start, log2, e, t.log);
    }

    /**
     * The child's whole life: its exit status is the closure's value, the
     * first-added callback's, or an abort if it panicked.
     */
    method ChildMain(child: K.Task) returns (status: K.WaitStatus)
      requires child.log == []
      modifies this`inSubprocess, this`callbacks, child`log
      ensures child.log == K.Run(child.refused, old(Plan(child.pid)))
      ensures status == Core.ChildEnd(child.refused, old(Plan(child.pid)), Reverse(old(callbacks)), child.pid)
      ensures K.Completes(child.refused, old(Plan(child.pid))) ==> status == K.ExitedWith(child.pid, old(ExitValue()))
    {
      var ok, ret := Closure(child);
      status := if ok then K.ExitedWith(child.pid, ret) else K.Aborted(child.pid);
    }

    /** The new process `pid`: it runs the closure on copies of `t` and of this configuration; the kernel keeps its calls and exit status. */
    method RunCloned(t: K.Task, pid: nat)
      modifies t`exits, t`childLogs
      ensures t.childLogs == old(t.childLogs)[pid := K.Run(t.refused, Plan(pid))]
      ensures t.exits == old(t.exits)[pid := Core.ChildEnd(t.refused, Plan(pid), Reverse(callbacks), pid)]
    {
      var child := new K.Task.Fork(t, pid);
      var image := new Wrap.Copy(this);
      ghost var plan := Plan(pid);
      assert image.Plan(pid) == plan && image.callbacks == callbacks;
      var status := image.ChildMain(child);
      t.ChildEnded(pid, child.log, status);
      assert Plan(pid) == plan;
    }

    /**
     * nix's `sched::clone` as `spawn` calls it: the stack top is the end of
     * the 120 KiB buffer rounded down to 16 bytes, the word carries
     * CLONE_NEWUSER | CLONE_NEWNS and SIGCHLD, and a failure is `NixErrno`.
     */
    method CloneStep(t: K.Task) returns (res: W.Result<nat, E.Error>)
      modifies t`log, t`nextPid, t`brk
      ensures t.log == old(t.log) + [SpawnClone(old(t.brk))]
      ensures res.Err? <==> K.Fails(t.refused, SpawnClone(old(t.brk)))
      ensures res.Err? ==> res.error == E.NixErrno(t.refused[SpawnClone(old(t.brk))])
      ensures res.Ok? ==> res.value == old(t.nextPid)
    {
      var stack := t.Alloc(U.STACK_SIZE);
      var raw, errno := t.RawClone(U.StackTop(stack + U.STACK_SIZE), SPAWN_WORD);
      if raw == -1 {
        res := W.Err(E.NixErrno(errno));
      } else {
        res := W.Ok(raw as nat);
      }
    }

    /**
     * `spawn`: clones the child, which runs the closure on its own copy of
     * the configuration; the parent's configuration is unchanged. A failed
     * clone(2) is returned as `NixErrno`.
     */
    method Spawn(t: K.Task) returns (r: W.Result<NsChild.Child, E.Error>)
      modifies t`log, t`nextPid, t`brk, t`exits, t`childLogs
      ensures t.log == old(t.log) + [SpawnClone(old(t.brk))]
      ensures r.Err? <==> K.Fails(t.refused, SpawnClone(old(t.brk)))
      ensures r.Err? ==> r.error == E.NixErrno(t.refused[SpawnClone(old(t.brk))])
      ensures r.Err? ==> t.exits == old(t.exits) && t.childLogs == old(t.childLogs)
      ensures r.Ok? ==> var pid := old(t.nextPid);
        r.value == NsChild.Child(pid)
        && t.childLogs == old(t.childLogs)[pid := K.Run(t.refused, Plan(pid))]
        && t.exits == old(t.exits)[pid := Core.ChildEnd(t.refused, Plan(pid), Reverse(callbacks), pid)]
      ensures r.Ok? && K.Completes(t.refused, Plan(r.value.pid)) ==>
        t.exits[r.value.pid] == K.ExitedWith(r.value.pid, ExitValue())
    {
      var res := CloneStep(t);
      if res.Err? {
        r := W.Err(res.error);
        return;
      }
      RunCloned(t, res.value);
      r := W.Ok(NsChild.Child(res.value));
    }
  }

  /** `abi_fs` is `todo!()`: calling it always panics. */
  function AbiFs(s: WrapState): (r: W.Option<WrapState>)
    ensures r == W.None
  {
    W.None
  }

  /**
   * The `callback_return_value` test of lib.rs: a single callback returning
   * 16, a new user namespace asked for, spawn, wait: the exit code is 16,
   * provided clone(2) succeeds.
   */
  method CallbackReturnValue(pid: nat, uid: u32, gid: u32, refused: map<K.Event, int>, firstChild: K.Pid, brk: nat)
    returns (code: W.Option<int>)
    requires !K.Fails(refused, SpawnClone(brk))
    ensures code == W.Some(16)
  {
    var wrap := new Wrap();
    wrap.Callback(K.Callback(0, 16));
    wrap.NsNew(C.NamespaceType.User);
    var t := new K.Task(pid, uid, gid, refused, firstChild, brk);
    assert wrap.Plan(firstChild) == [K.Invoke(0)];
    var r := wrap.Spawn(t);
    var child := r.value;
    var w := NsChild.Wait(t, child);
    code := NsChild.Code(w.value);
  }
}
