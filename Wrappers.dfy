/** Failure-compatible wrappers shared by the modules of this project. */
module Wrappers {

  /** A value that may be absent: PHP's `null`. */
  datatype Option<+T> = None | Some(value: T) {
    function GetOr(default: T): T {
      match this
      case Some(v) => v
      case None => default
    }
  }

  /** A computed value or the exception that a PHP function throws instead. */
  datatype Result<+T, +E> = Success(value: T) | Failure(error: E)

  /** The outcome of a PHP function returning `void`: it returns, or it throws. */
  datatype Outcome<+E> = Pass | Fail(error: E)
}
