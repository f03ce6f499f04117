/** Option and Result wrappers shared by the coordinator and worker modules. */
module Wrappers {

  /** A JavaScript value that may be `undefined`. */
  datatype Option<+T> = None | Some(value: T) {

    /** The value, or `default` when it is `undefined` (a destructuring default). */
    function GetOr(default: T): T {
      match this
      case Some(v) => v
      case None => default
    }
  }

  /** The outcome of an operation that may throw or terminate the process. */
  datatype Result<+T, +E> = Success(value: T) | Failure(error: E)
}
