/** Optional values and results with a typed failure, shared by every module of the model. */
module Wrappers {

  /** `None` stands for JavaScript's `undefined` (or `null`) wherever the source tolerates it. */
  datatype Option<+T> = None | Some(value: T) {
    function GetOr(default: T): T {
      match this
      case Some(v) => v
      case None => default
    }
  }

  /** A computation that either produces a value or raises the error the source throws. */
  datatype Result<+T, +E> = Success(value: T) | Failure(error: E)
}
