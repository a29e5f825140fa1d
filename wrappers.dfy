/** Optional values and results with an error, for fields that may be absent and
    operations that may fail. */
module Wrappers {

  /** A value that may be missing (`undefined` or `null` in a JSON body). */
  datatype Option<+T> = None | Some(value: T) {
    function GetOr(default: T): T {
      match this
      case Some(v) => v
      case None => default
    }
  }

  /** The outcome of an operation that either produces a value or fails with an error. */
  datatype Result<+R, +E> = Success(value: R) | Failure(error: E)
}
