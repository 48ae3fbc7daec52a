/** Option and Result, the two failure-compatible wrappers the model uses for
    values that JavaScript writes as `T | null` and for calls that throw. */
module Wrappers {

  datatype Option<+T> = None | Some(value: T) {
    function GetOr(default: T): T {
      match this
      case Some(v) => v
      case None => default
    }
  }

  datatype Result<+R, +E> = Success(value: R) | Failure(error: E)
}
