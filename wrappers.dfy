/** Option and Result shared by the model. */
module Wrappers {

  /** A value that may be absent (JavaScript's `undefined`, or a value that cannot be used). */
  datatype Option<+T> = None | Some(value: T) {
    /** The carried value, or `default` when absent. */
    function GetOr(default: T): T {
      match this
      case Some(v) => v
      case None => default
    }
  }

  /** The value an operation computes, or the error it throws. */
  datatype Result<+T, +E> = Ok(value: T) | Err(error: E)
}
