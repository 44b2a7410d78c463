/** Errors and replies shared by every part of the daemon package.
    The eight sentinel errors of daemon.go, plus opaque errors from external
    commands, the filesystem and executable lookup, and the `%w` wrapping
    that the backends apply to the errors they return. */
module Errors {

  datatype Option<+T> = None | Some(value: T)

  datatype Result<+T> = Ok(value: T) | Err(error: Error)

  datatype Error =
    | UnsupportedSystem
    | RootPrivileges
    | AlreadyInstalled
    | NotInstalled
    | AlreadyRunning
    | AlreadyStopped
    | MissExecValue
    | ConfigIsNil
      // an external command that exited unsuccessfully
    | Exec(argv: seq<string>)
      // a filesystem call (open, write, remove, mkdir, create) that failed
    | Fs(op: string, path: string)
      // the executable could not be found on the search path
    | NotFound(file: string)
      // fmt.Errorf("<context>: %w", cause)
    | Wrapped(context: string, cause: Error)

  /** errors.Is: the error itself, or anything it wraps, is `target`. */
  predicate Is(e: Error, target: Error)
  {
    e == target || (e.Wrapped? && Is(e.cause, target))
  }

  /** Wrapping with %w keeps the sentinel kind visible to errors.Is. */
  lemma {:induction false} WrapKeepsKind(context: string, e: Error, target: Error)
    requires !target.Wrapped?
    ensures Is(Wrapped(context, e), target) <==> Is(e, target)
  {
  }

  /** What a Status call would have printed. */
  datatype Report =
    | Starting                      // "Service is starting..."
    | Running(pid: Option<string>)  // "Service (pid N) is running" / "Service is running"
    | Stopped                       // "Service has stopped"
    | Raw(text: string)             // the control command's output, echoed verbatim
    | Silent                        // nothing is printed

  /** The result of one life-cycle call: a nil error, a status report (for
      Status, whose error is nil), or an error. */
  datatype Reply = Done | Shown(report: Report) | Failed(err: Error)
}
