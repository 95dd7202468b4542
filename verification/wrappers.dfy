/** Failure-carrying wrappers shared by the rest of the model. */
module Wrappers {

  /** An optional value: Go's `(value, ok)` and `(value, err)` pairs where only presence matters. */
  datatype Option<+T> = None | Some(value: T) {

    /** The carried value, or `default` when there is none. */
    function GetOr(default: T): T {
      match this
      case Some(v) => v
      case None => default
    }
  }

  /** A value or the error that prevented computing it. */
  datatype Result<+R, +E> = Success(value: R) | Failure(error: E)
}
