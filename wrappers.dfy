/** Option and Result, used for the `??` defaults and for the source's thrown errors. */
module Wrappers {

  datatype Option<+T> = None | Some(value: T) {
    /** The value, or `default` when absent: JavaScript's `x ?? default`. */
    function GetOr(default: T): T {
      match this
      case Some(v) => v
      case None => default
    }
  }

  /** `Failure(e)` stands for a `throw` of `e`: nothing is returned. */
  datatype Result<+R, +E> = Success(value: R) | Failure(error: E)
}
