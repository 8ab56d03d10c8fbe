/** Option and Result values shared by the parsing modules. */
module Wrappers {

  /** A value that may be absent (Rust's `Option`). */
  datatype Option<+T> = None | Some(value: T) {

    /** The held value, or `default` when there is none (Rust's `unwrap_or`). */
    function GetOr(default: T): T {
      match this
      case Some(v) => v
      case None => default
    }
  }

  /** The outcome of an operation that can fail (Rust's `Result`). */
  datatype Result<+R, +E> = Success(value: R) | Failure(error: E)
}
