/** The optional values and results shared by the rest of the model. */
module Wrappers {

  /** A value that may be absent: JavaScript's `undefined` (or a missing field). */
  datatype Option<+T> = None | Some(value: T) {

    /** The wrapped value, or `default` when absent. */
    function GetOr(default: T): T {
      match this
      case Some(v) => v
      case None => default
    }
  }

  /** Either a value or the message of a thrown error. */
  datatype Result<+R, +E> = Success(value: R) | Failure(error: E)
}
