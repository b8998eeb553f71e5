/** Optional values and results with an error, as used throughout the model. */
module Wrappers {

  /** A JavaScript value that may be `undefined`: `None` stands for `undefined`. */
  datatype Option<+T> = None | Some(value: T) {
    function GetOr(default: T): T {
      match this
      case Some(v) => v
      case None => default
    }
  }

  /** The outcome of a call that may throw: `Failure` carries the thrown value. */
  datatype Result<+R, +E> = Success(value: R) | Failure(error: E)
}
