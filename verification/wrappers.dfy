/** Rust's `Option` and `Result`, as used by the admin guard. */
module Wrappers {

  /** An optional value: `None`, or `Some(value)`. */
  datatype Option<+T> = None | Some(value: T)

  /** The outcome of a fallible operation: `Ok(value)` or `Err(error)`. */
  datatype Result<+T, +E> = Ok(value: T) | Err(error: E)
}
