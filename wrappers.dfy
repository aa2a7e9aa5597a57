/** Option and Result value wrappers used by the notes ledger. */
module Wrappers {

  /** Rust's `Option`: a value that may be absent. */
  datatype Option<+T> = None | Some(value: T)

  /** A value or a typed error, in place of a panic. */
  datatype Result<+T, +E> = Ok(value: T) | Err(error: E)
}
