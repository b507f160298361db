/**
 * The handle to a launched child and its exit status
 * (crates/nswrap/src/lib.rs: `Child`, `Child::wait`, `ExitStatus::code`).
 */
module NsChild {
  import opened Wrappers
  import opened NsError
  import K = Kernel

  /** The reference to the running child: its pid. */
  datatype Child = Child(pid: nat)

  /** What waitpid(2) reported about the child. */
  datatype ExitStatus = ExitStatus(waitStatus: K.WaitStatus)

  /** The value the child exited with, if it exited normally; `None` if it was killed, stopped and so on. */
  function Code(s: ExitStatus): (c: Option<int>)
    ensures c.Some? <==> s.waitStatus.Exited?
    ensures c.Some? ==> c.value == s.waitStatus.status
  {
    match s.waitStatus
    case Exited(_, ret) => Some(ret)
    case _ => None
  }

  /** A child whose entry function returned `v` reports `v` (for values the status byte holds); a panicked child reports none. */
  lemma CodeOfChildEnd(pid: nat, v: int)
    ensures 0 <= v < 256 ==> Code(ExitStatus(K.ExitedWith(pid, v))) == Some(v)
    ensures Code(ExitStatus(K.ExitedWith(pid, v))).Some?
    ensures Code(ExitStatus(K.Aborted(pid))) == None
  {
  }

  /** `Child::wait`: waitpid(2) on the child's pid; a failure becomes `NixErrno`. */
  method Wait(t: K.Task, c: Child) returns (r: Result<ExitStatus, Error>)
    modifies t`exits
    ensures c.pid in old(t.exits) ==> r == Ok(ExitStatus(old(t.exits)[c.pid])) && t.exits == old(t.exits) - {c.pid}
    ensures c.pid !in old(t.exits) ==> r == Err(NixErrno(K.ECHILD)) && t.exits == old(t.exits)
  {
    var w := t.WaitPid(c.pid);
    match w
    case Ok(status) => r := Ok(ExitStatus(status));
    case Err(errno) => r := Err(NixErrno(errno));
  }
}
