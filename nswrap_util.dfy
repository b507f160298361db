/**
 * crates/nswrap/src/util.rs: the `CloneFlags` table and the `clone`
 * wrapper's own arithmetic (stack-top alignment, flags word, result mapping).
 * The system call itself is Task.RawClone.
 */
module NsUtil {
  import opened Wrappers
  import opened Text
  import opened NsError
  import K = Kernel

  // `CLONE_*` values of <linux/sched.h>
  const CLONE_NEWTIME: bv32 := 0x80
  const CLONE_FS: bv32 := 0x200
  const CLONE_FILES: bv32 := 0x400
  const CLONE_NEWNS: bv32 := 0x2_0000
  const CLONE_SYSVSEM: bv32 := 0x4_0000
  const CLONE_NEWCGROUP: bv32 := 0x200_0000
  const CLONE_NEWUTS: bv32 := 0x400_0000
  const CLONE_NEWIPC: bv32 := 0x800_0000
  const CLONE_NEWUSER: bv32 := 0x1000_0000
  const CLONE_NEWPID: bv32 := 0x2000_0000
  const CLONE_NEWNET: bv32 := 0x4000_0000

  /** The bits of the clone flags word that carry the exit signal. */
  const CSIGNAL: bv32 := 0xff

  /** The `CloneFlags` constants, plus `NEWUTS`, which the launcher uses. */
  const CLONE_FLAG_TABLE: seq<bv32> := [
    CLONE_FILES, CLONE_FS, CLONE_NEWCGROUP, CLONE_NEWIPC, CLONE_NEWNET, CLONE_NEWNS,
    CLONE_NEWPID, CLONE_NEWTIME, CLONE_NEWUSER, CLONE_SYSVSEM, CLONE_NEWUTS]

  predicate SingleBit(b: bv32) {
    b != 0 && b & (b - 1) == 0
  }

  /** Each constant is one bit and no two share a bit, so a set of them is their union. */
  lemma CloneFlagsAreDistinctBits()
    ensures forall i :: 0 <= i < |CLONE_FLAG_TABLE| ==> SingleBit(CLONE_FLAG_TABLE[i])
    ensures forall i, j :: 0 <= i < j < |CLONE_FLAG_TABLE| ==> CLONE_FLAG_TABLE[i] & CLONE_FLAG_TABLE[j] == 0
  {
  }

  /** `Some(libc::SIGCHLD)` as it enters the clone word. */
  const SIGCHLD_WORD: bv32 := K.SIGCHLD as bv32

  /** The size of the stack the launcher allocates for the child. */
  const STACK_SIZE: nat := 122880

  /** The stack pointer handed to clone(2): the end of the buffer rounded down to 16 bytes. */
  function StackTop(end: nat): (top: nat)
    ensures top % 16 == 0
    ensures top <= end && end - top < 16
  {
    end - end % 16
  }

  /** `flags.bits() as i32 | signal.unwrap_or(0)`. */
  function CloneWord(flags: bv32, signal: Option<bv32>): bv32 {
    flags | signal.GetOr(0)
  }

  /**
   * The kernel reads the exit signal from the low byte of the word and the
   * namespace flags from the rest; both come back as they were given.
   */
  lemma CloneWordSplits(flags: bv32, signal: Option<bv32>)
    requires flags & CSIGNAL == 0
    requires signal.Some? ==> signal.value & !CSIGNAL == 0
    ensures CloneWord(flags, signal) & CSIGNAL == signal.GetOr(0)
    ensures CloneWord(flags, signal) & !CSIGNAL == flags
  {
  }

  /** `CLONE_NEWTIME` lies in the exit-signal byte, so clone(2) cannot be asked for a time namespace. */
  lemma NewTimeOverlapsSignalByte()
    ensures CLONE_NEWTIME & CSIGNAL != 0
    ensures CloneWord(CLONE_NEWTIME, Some(SIGCHLD_WORD)) & CSIGNAL != SIGCHLD_WORD
  {
  }

  /** The raw clone(2) result: -1 is an error carrying errno, anything else the pid as `u32`. */
  function CloneResult(res: i32, errno: int): (r: Result<nat, Error>)
    ensures r.Err? <==> res == -1
    ensures r.Err? ==> r.error == OsErrno(errno)
    ensures r.Ok? ==> r.value < U32_LIMIT && (r.value - res) % U32_LIMIT == 0
    ensures res >= 0 ==> r == Ok(res)
  {
    if res == -1 then Err(OsErrno(errno)) else Ok(res % U32_LIMIT)
  }

  /**
   * `util::clone` on a stack of `stackLen` bytes at address `stack`. The
   * closure's run in the child is not part of this call: see the launchers.
   */
  method Clone(t: K.Task, stack: nat, stackLen: nat, flags: bv32, signal: Option<bv32>)
    returns (r: Result<nat, Error>)
    modifies t`log, t`nextPid
    ensures t.log == old(t.log) + [K.Clone(StackTop(stack + stackLen), CloneWord(flags, signal))]
    ensures r.Err? <==> K.Fails(t.refused, K.Clone(StackTop(stack + stackLen), CloneWord(flags, signal)))
    ensures r.Err? ==> r.error == OsErrno(t.refused[K.Clone(StackTop(stack + stackLen), CloneWord(flags, signal))])
    ensures r.Ok? ==> r.value == old(t.nextPid) && t.nextPid == (old(t.nextPid) + 1) % K.PID_MAX
    ensures r.Err? ==> t.nextPid == old(t.nextPid)
  {
    var top := StackTop(stack + stackLen);
    var word := CloneWord(flags, signal);
    var res, errno := t.RawClone(top, word);
    r := CloneResult(res, errno);
  }
}
