/** Failure-carrying return values: the model's counterpart of `Result<T>` and `Result<()>`. */
module Wrappers {

  datatype Option<+T> = None | Some(value: T)

  /** A computation that yields a value or fails with an error. */
  datatype Result<+T, +E> = Success(value: T) | Failure(error: E)

  /** A computation that yields nothing on success (Rust's `Result<()>`). */
  datatype Outcome<+E> = Pass | Fail(error: E)
}
