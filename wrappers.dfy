/** Option and Result, used across the model. */
module Wrappers {

  datatype Option<+T> = None | Some(value: T) {
    function GetOr(default: T): T {
      match this
      case Some(v) => v
      case None => default
    }
  }

  /** A computation that either succeeds with a value or fails with an error message (a thrown Error). */
  datatype Result<+R, +E> = Success(value: R) | Failure(error: E)
}
