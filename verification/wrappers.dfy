/** Optional values and results with an error, used for the source's optional
    fields and for the errors its operations throw. */
module Wrappers {

  /** A value that may be absent (an optional field, `undefined`). */
  datatype Option<+T> = None | Some(value: T) {

    /** The value when present, otherwise the given default. */
    function GetOr(default: T): T {
      match this
      case Some(v) => v
      case None => default
    }
  }

  /** The outcome of an operation that either returns a value or raises an error. */
  datatype Result<+R, +E> = Success(value: R) | Failure(error: E)
}
