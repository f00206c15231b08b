/** Failure-compatible helper datatypes shared by every module of the model. */
module Wrappers {

  /** A value that may be absent: Python's `None` versus a present value. */
  datatype Option<+T> = None | Some(value: T) {
    function GetOr(default: T): T {
      match this
      case Some(v) => v
      case None => default
    }
  }

  /** The outcome of an operation that either succeeds or raises. */
  datatype Result<+T, +E> = Ok(value: T) | Err(error: E)
}
