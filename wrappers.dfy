/** Option and Result, the failure-carrying values every handler of the model returns. */
module Wrappers {

  datatype Option<+T> = None | Some(value: T) {
    /** The wrapped value, or `default` when there is none. */
    function GetOr(default: T): T
    {
      match this
      case Some(v) => v
      case None => default
    }
  }

  /** A handler either succeeds with a value or answers `success: false` with an error. */
  datatype Result<+R, +E> = Success(value: R) | Failure(error: E)
}
