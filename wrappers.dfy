/** Optional values and success-or-error results shared by both resolvers. */
module Wrappers {

  /** An optional value: `None` stands for JavaScript's `undefined` (or a missing key). */
  datatype Option<+T> = None | Some(value: T) {
    function GetOr(default: T): T {
      match this
      case Some(v) => v
      case None => default
    }
  }

  /** The outcome of an operation that may throw: `Failure` carries the error message. */
  datatype Result<+R, +E> = Success(value: R) | Failure(error: E)
}
