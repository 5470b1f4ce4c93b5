/** Failure-compatible result types shared by every module of the model. */
module Wrappers {

  /** A value that may be absent: null/None/undefined in the source. */
  datatype Option<+T> = None | Some(value: T) {
    function GetOr(default: T): T {
      match this
      case Some(v) => v
      case None => default
    }
  }

  /** The outcome of an operation that either succeeds or raises/returns an error. */
  datatype Result<+T, +E> = Success(value: T) | Failure(error: E)
}
