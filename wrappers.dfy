/** Option and Result, the two Rust standard types the front end returns. */
module Wrappers {

  /** Rust's `Option<T>`. */
  datatype Option<+T> = None | Some(value: T)

  /** Rust's `Result<T, E>`; a panic of the source becomes an `Err`. */
  datatype Result<+T, +E> = Ok(value: T) | Err(error: E)
}
