/** Failure-compatible wrappers used across the model: an absent value (JavaScript's
    `null`, `undefined` or `NaN`) and the outcome of a call that may throw. */
module Wrappers {

  datatype Option<+T> = None | Some(value: T) {
    function GetOr(default: T): T {
      match this
      case Some(v) => v
      case None => default
    }
  }

  datatype Result<+T, +E> = Success(value: T) | Failure(error: E)
}
