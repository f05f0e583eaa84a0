/** Optional values and results with an error, as used across the model. */
module Wrappers {

  /** A value that may be missing (Python's `None`). */
  datatype Option<+T> = None | Some(value: T) {
    function GetOr(default: T): T {
      match this
      case Some(v) => v
      case None => default
    }
  }

  /** The outcome of an operation that can raise. */
  datatype Result<+T, +E> = Success(value: T) | Failure(error: E)
}
