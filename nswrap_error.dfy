/** The error kinds of the nswrap crate (crates/nswrap/src/error.rs, plus the `NixErrno` lib.rs uses). */
module NsError {
  datatype Error =
    | UnshareFailed(errno: int)
    | CloneFailed(errno: int)
    | OsErrno(errno: int)
    | Unknown
    | NixErrno(errno: int)
}
