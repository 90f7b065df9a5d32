/** The Rust standard-library shapes the ticket code returns: `Option`, `Result`, and
    the outcome of a call that may `panic!`. */
module Wrappers {

  /** Rust's `Option<T>`. */
  datatype Option<+T> = None | Some(value: T)

  /** Rust's `Result<T, E>`. */
  datatype Result<+T, +E> = Ok(value: T) | Err(error: E)

  /** What a call that may `panic!` does: it returns a value, or it unwinds with the
      panic message and the caller never sees a result. */
  datatype Outcome<+T> = Returned(value: T) | Panicked(message: string)
}
