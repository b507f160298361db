/**
 * The operating system as the launcher sees it. Every kernel call the Rust
 * code makes (and every user callback it invokes) is an Event appended to the
 * log of the Task (process image) that made it. Which calls fail, and with
 * which errno, is fixed in advance by the `refused` oracle.
 */
module Kernel {
  import opened Wrappers
  import opened Text

  /** A user closure `FnOnce() -> isize`: an identity and the value it returns. */
  datatype Callback = Callback(id: nat, value: int)

  datatype Event =
    | Clone(stack: nat, flags: bv32)                    // clone(2): stack top and flags word
    | Unshare(flags: bv32)                              // unshare(2)
    | Setns(fd: int, nstype: bv32)                      // setns(2)
    | WriteFile(path: string, data: string)             // open(path, O_WRONLY) and one write(2) of data
    | ChangeMount(target: string, flags: bv32)          // mount(NULL, target, NULL, flags, NULL)
    | Mount(source: string, target: string, fstype: string, flags: bv32, data: string)
    | Chdir(path: string)
    | Mkdir(path: string, mode: nat)
    | PivotRoot(newRoot: string, putOld: string)
    | Invoke(callback: nat)                             // a user callback runs

  // mount(2) flags, with the values of <linux/mount.h>
  const MS_NOSUID: bv32 := 0x2
  const MS_NODEV: bv32 := 0x4
  const MS_BIND: bv32 := 0x1000
  const MS_REC: bv32 := 0x4000
  const MS_SILENT: bv32 := 0x8000
  const MS_SLAVE: bv32 := 0x8_0000
  const MS_MGC_VAL: bv32 := 0xC0ED_0000
  const MS_UNBINDABLE: bv32 := 0x2_0000
  const MS_PRIVATE: bv32 := 0x4_0000
  const MS_SHARED: bv32 := 0x10_0000
  const MS_MGC_MSK: bv32 := 0xFFFF_0000
  const MS_PROPAGATION: bv32 := MS_SHARED | MS_PRIVATE | MS_SLAVE | MS_UNBINDABLE

  /** What mount(2) is asked to do, once the kernel has decoded the flags word. */
  datatype MountRequest =
    | Bind(source: string, target: string, recursive: bool)
    | Propagation(target: string, kind: bv32, recursive: bool)
    | NewMount(source: string, target: string, fstype: string, flags: bv32, data: string)
    | NotAMount(e: Event)

  /** The flags word after the kernel drops the old magic number from its top half. */
  function FlagsSeen(flags: bv32): (f: bv32)
    ensures flags & MS_MGC_MSK != MS_MGC_VAL ==> f == flags
    ensures f & !MS_MGC_MSK == flags & !MS_MGC_MSK
  {
    if flags & MS_MGC_MSK == MS_MGC_VAL then flags & !MS_MGC_MSK else flags
  }

  /**
   * The branch of mount(2) a call takes (no call here uses MS_REMOUNT or
   * MS_MOVE): a bind mount keeps only MS_REC; a propagation change keeps
   * the propagation type and MS_REC and ignores MS_SILENT; anything else
   * mounts a new filesystem. A propagation change made through
   * `change_mount` is mount(2) with no source, type or data.
   */
  function RequestOf(e: Event): MountRequest {
    match e
    case Mount(source, target, fstype, flags, data) => Classify(source, target, fstype, FlagsSeen(flags), data)
    case ChangeMount(target, flags) => Classify("", target, "", FlagsSeen(flags), "")
    case _ => NotAMount(e)
  }

  function Classify(source: string, target: string, fstype: string, f: bv32, data: string): MountRequest {
    if f & MS_BIND != 0 then Bind(source, target, f & MS_REC != 0)
    else if f & MS_PROPAGATION != 0 then Propagation(target, f & !(MS_REC | MS_SILENT), f & MS_REC != 0)
    else NewMount(source, target, fstype, f, data)
  }

  /** PID_MAX_LIMIT on 64-bit Linux: every pid the kernel hands out is below it. */
  const PID_MAX: nat := 0x40_0000
  type Pid = x: nat | x < PID_MAX

  const SIGABRT: nat := 6
  const SIGCHLD: nat := 17
  const ECHILD: int := 10

  /** nix's `WaitStatus`: what waitpid(2) reports about a child. */
  datatype WaitStatus =
    | Exited(pid: nat, status: int)
    | Signaled(pid: nat, signal: nat, coreDumped: bool)
    | Stopped(pid: nat, signal: nat)
    | PtraceEvent(pid: nat, signal: nat, event: int)
    | PtraceSyscall(pid: nat)
    | Continued(pid: nat)
    | StillAlive

  /** The entry function returned `v`: the kernel keeps the low 8 bits as the exit status. */
  function ExitedWith(pid: nat, v: int): (w: WaitStatus)
    ensures w.Exited? && w.pid == pid && 0 <= w.status < 256
    ensures 0 <= v < 256 ==> w.status == v
  {
    Exited(pid, v % 256)
  }

  /** A Rust panic in the child aborts it. */
  function Aborted(pid: nat): WaitStatus {
    Signaled(pid, SIGABRT, false)
  }

  /** A kernel call the oracle refuses; user callbacks never fail. */
  predicate Fails(refused: map<Event, int>, e: Event) {
    !e.Invoke? && e in refused
  }

  predicate Completes(refused: map<Event, int>, plan: seq<Event>) {
    forall i :: 0 <= i < |plan| ==> !Fails(refused, plan[i])
  }

  /**
   * What actually happens when a plan of calls is carried out and the first
   * failing call panics: the plan up to and including that call.
   */
  function Run(refused: map<Event, int>, plan: seq<Event>): (done: seq<Event>)
    ensures |done| <= |plan| && done == plan[..|done|]
    ensures Completes(refused, plan) ==> done == plan
  {
    if plan == [] then []
    else if Fails(refused, plan[0]) then [plan[0]]
    else [plan[0]] + Run(refused, plan[1..])
  }

  lemma {:induction false} RunAppend(refused: map<Event, int>, a: seq<Event>, b: seq<Event>)
    ensures Run(refused, a + b) == if Completes(refused, a) then a + Run(refused, b) else Run(refused, a)
    ensures Completes(refused, a + b) <==> Completes(refused, a) && Completes(refused, b)
  {
    if a == [] {
      assert a + b == b;
    } else {
      assert (a + b)[0] == a[0];
      assert (a + b)[1..] == a[1..] + b;
      RunAppend(refused, a[1..], b);
      assert Completes(refused, a) <==> !Fails(refused, a[0]) && Completes(refused, a[1..]);
      assert Completes(refused, a + b) <==> !Fails(refused, a[0]) && Completes(refused, a[1..] + b);
    }
  }

  /**
   * Part of the run of `whole` is in `log` after `start`, and what remains
   * of it is the run of `rest`: the calls of `whole` still to be made.
   */
  ghost predicate Pending(refused: map<Event, int>, whole: seq<Event>, start: seq<Event>, log: seq<Event>, rest: seq<Event>) {
    log + Run(refused, rest) == start + Run(refused, whole)
    && Completes(refused, whole) == Completes(refused, rest)
  }

  /** Nothing of a plan has run yet. */
  lemma PendingStart(refused: map<Event, int>, whole: seq<Event>, start: seq<Event>)
    ensures Pending(refused, whole, start, start, whole)
  {
  }

  /** `head` completed: `rest` is pending after it. */
  lemma PendingPast(refused: map<Event, int>, whole: seq<Event>, start: seq<Event>, log: seq<Event>,
                    head: seq<Event>, rest: seq<Event>)
    requires Pending(refused, whole, start, log, head + rest)
    requires Completes(refused, head)
    ensures Pending(refused, whole, start, log + head, rest)
  {
    RunAppend(refused, head, rest);
    assert log + (head + Run(refused, rest)) == (log + head) + Run(refused, rest);
  }

  /** `head` failed: the run of the whole plan ended in it. */
  lemma PendingStops(refused: map<Event, int>, whole: seq<Event>, start: seq<Event>, log: seq<Event>,
                     head: seq<Event>, rest: seq<Event>)
    requires Pending(refused, whole, start, log, head + rest)
    requires !Completes(refused, head)
    ensures log + Run(refused, head) == start + Run(refused, whole) && !Completes(refused, whole)
  {
    RunAppend(refused, head, rest);
  }

  /**
   * The calls `head` were made next, taking `log` to `log'`: either they
   * completed and `rest` is pending, or the run ended in them and `log'`
   * holds the whole run.
   */
  lemma PendingThen(refused: map<Event, int>, whole: seq<Event>, start: seq<Event>, log: seq<Event>,
                    head: seq<Event>, rest: seq<Event>, log': seq<Event>, ok: bool)
    requires Pending(refused, whole, start, log, head + rest)
    requires log' == log + Run(refused, head) && (ok <==> Completes(refused, head))
    ensures ok ==> Pending(refused, whole, start, log', rest)
    ensures !ok ==> log' == start + Run(refused, whole) && !Completes(refused, whole)
  {
    if ok {
      PendingPast(refused, whole, start, log, head, rest);
    } else {
      PendingStops(refused, whole, start, log, head, rest);
    }
  }

  /** Calls that make up nothing change nothing of what is pending. */
  lemma PendingSkip(refused: map<Event, int>, whole: seq<Event>, start: seq<Event>, log: seq<Event>,
                    head: seq<Event>, rest: seq<Event>)
    requires Pending(refused, whole, start, log, head + rest)
    requires head == []
    ensures Pending(refused, whole, start, log, rest)
  {
    assert head + rest == rest;
  }

  /** The last pending calls were made and completed: `log'` holds the whole run, which completed. */
  lemma PendingLast(refused: map<Event, int>, whole: seq<Event>, start: seq<Event>, log: seq<Event>,
                    last: seq<Event>, log': seq<Event>)
    requires Pending(refused, whole, start, log, last)
    requires log' == log + Run(refused, last) && Completes(refused, last)
    ensures log' == start + Run(refused, whole) && Completes(refused, whole)
  {
  }

  /** Nothing is pending: `log` holds the whole run, which completed. */
  lemma PendingDone(refused: map<Event, int>, whole: seq<Event>, start: seq<Event>, log: seq<Event>)
    requires Pending(refused, whole, start, log, [])
    ensures log == start + Run(refused, whole) && Completes(refused, whole)
  {
    assert log + Run(refused, []) == log;
  }

  /**
   * Carrying out a plan one call at a time: after the first k calls
   * succeeded, call k either fails, and the run stops there, or succeeds.
   */
  lemma RunStep(refused: map<Event, int>, plan: seq<Event>, k: nat)
    requires k < |plan|
    requires Completes(refused, plan[..k])
    ensures plan[..k + 1] == plan[..k] + [plan[k]]
    ensures Fails(refused, plan[k]) ==> Run(refused, plan) == plan[..k + 1]
    ensures !Fails(refused, plan[k]) ==> Completes(refused, plan[..k + 1])
  {
    assert plan == plan[..k] + ([plan[k]] + plan[k + 1..]);
    RunAppend(refused, plan[..k], [plan[k]] + plan[k + 1..]);
  }

  /**
   * One process image: its pid, its identity, the calls it has made, the
   * `IS_CHILD` static of core.rs, and what the kernel keeps about its
   * children (their exit status for waitpid, and their call logs).
   */
  class Task {
    const pid: nat
    const uid: u32
    const gid: u32
    const refused: map<Event, int>
    var log: seq<Event>
    var isChild: bool
    var nextPid: Pid
    var brk: nat
    var exits: map<nat, WaitStatus>
    var childLogs: map<nat, seq<Event>>

    constructor (pid: nat, uid: u32, gid: u32, refused: map<Event, int>, firstChild: Pid, brk: nat)
      ensures this.pid == pid && this.uid == uid && this.gid == gid && this.refused == refused
      ensures log == [] && !isChild && nextPid == firstChild && this.brk == brk
      ensures exits == map[] && childLogs == map[]
    {
      this.pid, this.uid, this.gid, this.refused := pid, uid, gid, refused;
      log, isChild, nextPid, this.brk := [], false, firstChild, brk;
      exits, childLogs := map[], map[];
    }

    /** The child's image right after clone(2): a copy of the parent's memory with its own pid. */
    constructor Fork(parent: Task, pid: nat)
      ensures this.pid == pid && uid == parent.uid && gid == parent.gid && refused == parent.refused
      ensures log == [] && isChild == parent.isChild && nextPid == parent.nextPid && brk == parent.brk
      ensures exits == map[] && childLogs == map[]
    {
      this.pid, uid, gid, refused := pid, parent.uid, parent.gid, parent.refused;
      log, isChild, nextPid, brk := [], parent.isChild, parent.nextPid, parent.brk;
      exits, childLogs := map[], map[];
    }

    /** A kernel call: recorded, and answered with the errno the oracle holds for it, if any. */
    method Call(e: Event) returns (errno: Option<int>)
      modifies this`log
      ensures log == old(log) + [e]
      ensures errno == if Fails(refused, e) then Some(refused[e]) else None
    {
      log := log + [e];
      errno := if Fails(refused, e) then Some(refused[e]) else None;
    }

    /**
     * Call `k` of a fixed plan, made once the calls before it succeeded: on
     * success the log holds one more call of the plan; on failure the log
     * is the plan's run, which stops here.
     */
    method Step(e: Event, ghost plan: seq<Event>, ghost k: nat, ghost start: seq<Event>) returns (ok: bool)
      requires k < |plan| && plan[k] == e
      requires log == start + plan[..k] && Completes(refused, plan[..k])
      modifies this`log
      ensures ok ==> log == start + plan[..k + 1] && Completes(refused, plan[..k + 1])
      ensures !ok ==> log == start + Run(refused, plan) && !Completes(refused, plan)
    {
      var errno := Call(e);
      RunStep(refused, plan, k);
      ok := errno.None?;
    }

    /** Runs a user callback and returns what it returns. */
    method Invoke(cb: Callback) returns (v: int)
      modifies this`log
      ensures log == old(log) + [Event.Invoke(cb.id)]
      ensures v == cb.value
    {
      log := log + [Event.Invoke(cb.id)];
      v := cb.value;
    }

    /** A heap allocation of `size` bytes; returns its address. */
    method Alloc(size: nat) returns (addr: nat)
      modifies this`brk
      ensures addr == old(brk) && brk == old(brk) + size
    {
      addr := brk;
      brk := brk + size;
    }

    /** The raw clone(2) system call: the new pid, or -1 and errno. */
    method RawClone(stack: nat, flags: bv32) returns (res: i32, errno: int)
      modifies this`log, this`nextPid
      ensures log == old(log) + [Clone(stack, flags)]
      ensures Fails(refused, Clone(stack, flags)) ==>
        res == -1 && errno == refused[Clone(stack, flags)] && nextPid == old(nextPid)
      ensures !Fails(refused, Clone(stack, flags)) ==>
        res == old(nextPid) && nextPid == (old(nextPid) + 1) % PID_MAX
    {
      var e := Clone(stack, flags);
      log := log + [e];
      if Fails(refused, e) {
        res, errno := -1, refused[e];
      } else {
        res, errno := nextPid, 0;
        nextPid := (nextPid + 1) % PID_MAX;
      }
    }

    /** The kernel's note of how a child ended and which calls it made. */
    method ChildEnded(child: nat, childLog: seq<Event>, status: WaitStatus)
      modifies this`exits, this`childLogs
      ensures exits == old(exits)[child := status]
      ensures childLogs == old(childLogs)[child := childLog]
    {
      exits := exits[child := status];
      childLogs := childLogs[child := childLog];
    }

    /** waitpid(2) on one child: reaps its status, or ECHILD if there is none to reap. */
    method WaitPid(child: nat) returns (r: Result<WaitStatus, int>)
      modifies this`exits
      ensures child in old(exits) ==> r == Ok(old(exits)[child]) && exits == old(exits) - {child}
      ensures child !in old(exits) ==> r == Err(ECHILD) && exits == old(exits)
    {
      if child in exits {
        r := Ok(exits[child]);
        exits := exits - {child};
      } else {
        r := Err(ECHILD);
      }
    }
  }
}
