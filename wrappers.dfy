/** Option and Result types shared by the whole model. */
module Wrappers {

  /** A value that may be absent: JavaScript's `undefined` / `null` fields. */
  datatype Option<+T> = None | Some(value: T) {

    function GetOr(default: T): T {
      match this
      case Some(v) => v
      case None => default
    }
  }

  /** The outcome of an operation that can fail with an error value. */
  datatype Result<+T, +E> = Success(value: T) | Failure(error: E)
}
