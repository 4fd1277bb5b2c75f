/** Optional values and results, in place of the source's nulls and exceptions. */
module Wrappers {

  datatype Option<+T> = None | Some(value: T) {

    /** The source's `value ?? fallback`. */
    function GetOr(fallback: T): T {
      match this
      case None => fallback
      case Some(v) => v
    }
  }

  datatype Result<+T, +E> = Success(value: T) | Failure(error: E)
}
