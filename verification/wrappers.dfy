/** Failure-carrying values shared by the other modules: a missing value, a
    value-or-error, and a pass-or-error outcome. */
module Wrappers {

  datatype Option<+T> = None | Some(value: T) {
    function GetOr(default: T): T {
      match this
      case Some(v) => v
      case None => default
    }
  }

  datatype Result<+R, +E> = Success(value: R) | Failure(error: E)

  /** What a call made only for its effect reports: it passed, or it raised `error`. */
  datatype Outcome<+E> = Pass | Fail(error: E)
}
