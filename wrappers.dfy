/** Option and Result: absent values and the outcome of calls that may fail. */
module Wrappers {

  /** A value that may be absent: Python's `None` or a missing dict key. */
  datatype Option<+T> = None | Some(value: T) {
    function GetOr(default: T): T {
      match this
      case Some(v) => v
      case None => default
    }
  }

  /** The outcome of a call that may raise: `Failure` carries the text of the exception. */
  datatype Result<+T, +E> = Success(value: T) | Failure(error: E)
}
