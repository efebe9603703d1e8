/** `Option` and `Result`, as in Rust, shared by the classifier and the formatter. */
module Wrappers {

  /** A value that may be absent, as Rust's `Option`. */
  datatype Option<+T> = None | Some(value: T)

  /** The outcome of an operation that either produces a value or faults. */
  datatype Result<+T, +E> = Ok(value: T) | Err(error: E)
}
