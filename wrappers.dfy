/** Optional values and success-or-error results, used for Python's `None` and its exceptions. */
module Wrappers {

  datatype Option<+T> = None | Some(value: T) {
    function GetOr(default: T): T {
      match this
      case Some(v) => v
      case None => default
    }
  }

  /** The outcome of an operation that either returns a value or raises an error whose text is `error`. */
  datatype Result<+R, +E> = Success(value: R) | Failure(error: E)
}
