/** Option and Result, standing for Kotlin's nullable types and `kotlin.Result`. */
module Wrappers {

  /** `T?` in the source: `None` is `null`. */
  datatype Option<+T> = None | Some(value: T) {
    /** Kotlin's `?:` elvis operator. */
    function GetOr(default: T): T {
      match this
      case Some(v) => v
      case None => default
    }
  }

  /** `Result.success(v)` / `Result.failure(e)`. */
  datatype Result<+R, +E> = Success(value: R) | Failure(error: E)
}
