/** Failure-carrying values used throughout the model: a Python `None`
    becomes `None`, a raised exception becomes `Failure(error)`. */
module Wrappers {

  datatype Option<+T> = None | Some(value: T) {
    function GetOr(default: T): T {
      match this
      case Some(v) => v
      case None => default
    }
  }

  datatype Result<+R, +E> = Success(value: R) | Failure(error: E)
}
