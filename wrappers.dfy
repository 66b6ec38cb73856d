/** Failure-compatible result types shared by the modules of this model. */
module Wrappers {

  /** A value that may be absent: a missing dictionary key or command-line option. */
  datatype Option<+T> = None | Some(value: T) {

    /** The value, or `default` when absent (Python's `dict.get(key, default)`). */
    function GetOr(default: T): (r: T) {
      match this
      case Some(v) => v
      case None => default
    }
  }

  /** The value an operation returns, or the exception it raises. */
  datatype Result<+R, +E> = Success(value: R) | Failure(error: E)

  /** An operation that returns nothing, or the exception it raises. */
  datatype Outcome<+E> = Pass | Fail(error: E)
}
