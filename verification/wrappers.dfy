/** Failure-compatible wrappers shared by every module of the model. */
module Wrappers {

  /** An optional value; stands for a Go pointer that may be nil. */
  datatype Option<+T> = None | Some(value: T) {

    /** The wrapped value, or `default` when absent. */
    function GetOr(default: T): T {
      match this
      case Some(v) => v
      case None => default
    }
  }

  /** Either a value or an error; stands for Go's `(value, error)` pair. */
  datatype Result<+T, +E> = Ok(value: T) | Err(error: E)
}
