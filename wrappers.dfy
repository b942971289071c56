/** Option and Result, the two failure-carrying value types the model uses. */
module Wrappers {

  /** A TypeScript optional field: `None` when the key is absent. */
  datatype Option<+T> = None | Some(value: T) {

    /** The value, or `default` when absent: TypeScript's `x ?? default`. */
    function GetOr(default: T): T {
      match this
      case Some(v) => v
      case None => default
    }
  }

  /** The outcome of an operation that either yields a value or fails with a message. */
  datatype Result<+R, +E> = Success(value: R) | Failure(error: E)
}
