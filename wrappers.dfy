/** Option and Result, used for the nullable values and the raised errors of the system. */
module Wrappers {

  datatype Option<+T> = None | Some(value: T) {

    /** The value of Some, or the given default for None. */
    function GetOr(default: T): T {
      match this
      case Some(v) => v
      case None => default
    }
  }

  /** Success carries a value; Failure carries the error a call raised or returned. */
  datatype Result<+R, +E> = Success(value: R) | Failure(error: E)
}
