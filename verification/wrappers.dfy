/** Option and Result, the wrappers every fallible operation of the model returns. */
module Wrappers {

  /** A value that may be absent (Rust's `Option`). */
  datatype Option<+T> = None | Some(value: T) {

    /** The contained value, or `default` when absent (Rust's `unwrap_or`). */
    function GetOr(default: T): T {
      match this
      case Some(v) => v
      case None => default
    }
  }

  /** The outcome of a fallible operation (Rust's `Result`). */
  datatype Result<+T, +E> = Ok(value: T) | Err(error: E)
}
