/** Option and Result: absent values and error returns. */
module Wrappers {

  /** A value that may be absent (JavaScript's `undefined`/`null` for a field). */
  datatype Option<+T> = None | Some(value: T) {
    function GetOr(default: T): T {
      match this
      case Some(v) => v
      case None => default
    }
  }

  /** Either a value or an error (a thrown exception). */
  datatype Result<+R, +E> = Success(value: R) | Failure(error: E)
}
