/** Failure-carrying values shared by every module of the model. */
module Wrappers {

  /** A value that may be absent: Python's `None` versus a present value. */
  datatype Option<+T> = None | Some(value: T) {

    /** The present value, or `default` when absent (Python's `x if x is not None else default`). */
    function GetOr(default: T): T {
      match this
      case Some(v) => v
      case None => default
    }
  }

  /** The outcome of an operation that either returns a value or raises. */
  datatype Result<+T, +E> = Ok(value: T) | Err(error: E)
}
