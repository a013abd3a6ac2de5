/** Result types for the places where the Rust source returns `Option`
    or `Result`. */
module Wrappers {

  datatype Option<+T> = None | Some(value: T)

  /** A value or an error, as Rust's `Result<T, E>`. */
  datatype Result<+T, +E> = Ok(value: T) | Err(error: E)

  /** The outcome of an operation with no value, as Rust's `Result<(), E>`. */
  datatype Outcome<+E> = Pass | Fail(error: E)
}
