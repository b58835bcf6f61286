/** Optional values and results with an error, used where the source has null or throws. */
module Wrappers {

  /** A value that may be absent: a Java reference that may be null, or a weak reference that may be cleared. */
  datatype Option<+T> = None | Some(value: T) {

    /** The value, or `default` when there is none. */
    function GetOr(default: T): T {
      match this
      case Some(v) => v
      case None => default
    }
  }

  /** The outcome of an operation that either returns a value or throws. */
  datatype Result<+T, +E> = Ok(value: T) | Err(error: E)
}
