/** Optional values and call outcomes used across the model. */
module Wrappers {

  /** A value that may be absent: a dictionary key that is not present. */
  datatype Option<+T> = None | Some(value: T) {
    function GetOr(default: T): T {
      match this
      case Some(v) => v
      case None => default
    }
  }

  /** The outcome of a call that either returns or raises. */
  datatype Result<+R, +E> = Success(value: R) | Failure(error: E)
}
