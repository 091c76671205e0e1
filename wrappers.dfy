/** Option and Result values, used for Kotlin's nullable types and for the
    exceptions the source throws or catches. */
module Wrappers {

  datatype Option<+T> = None | Some(value: T) {
    /** Kotlin's `?:` operator. */
    function GetOr(default: T): T {
      match this
      case Some(v) => v
      case None => default
    }
  }

  datatype Result<+R, +E> = Success(value: R) | Failure(error: E)
}
