/** Option and Result values used for the panel's "value or error" returns. */
module Wrappers {

  /** A value that may be missing: a Go `nil` pointer, a failed lookup, a JS `undefined`. */
  datatype Option<+T> = None | Some(value: T) {
    function GetOr(default: T): T {
      match this
      case Some(v) => v
      case None => default
    }
  }

  /** A Go `(value, error)` pair: exactly one of the two is meaningful. */
  datatype Result<+R, +E> = Success(value: R) | Failure(error: E)
}
