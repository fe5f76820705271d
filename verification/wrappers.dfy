/** Optional values and success/failure results, used wherever the page or
    the server has a nullable value, an absent JSON field or a raised exception. */
module Wrappers {

  /** A value that may be absent (`null` / `undefined` / a missing field). */
  datatype Option<+T> = None | Some(value: T) {

    /** The carried value, or `default` when there is none (JavaScript's `x ?? default`). */
    function GetOr(default: T): T {
      match this
      case Some(v) => v
      case None => default
    }
  }

  /** The outcome of a computation that can raise. */
  datatype Result<+T, +E> = Success(value: T) | Failure(error: E)
}
