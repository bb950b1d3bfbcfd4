/** Option and Result, the two shapes the store and the UI helpers return. */
module Wrappers {

  /** `undefined` / `null` (None) or a value. */
  datatype Option<+T> = None | Some(value: T) {
    function GetOr(default: T): T {
      match this
      case Some(v) => v
      case None => default
    }
  }

  /** A normal return (Success) or a thrown error (Failure). */
  datatype Result<+T, +E> = Success(value: T) | Failure(error: E)
}
