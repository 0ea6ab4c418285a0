/** Rust's `Option` and `Result`, the two shapes every fallible step of the backends returns. */
module Outcomes {

  datatype Option<+T> = None | Some(value: T)

  datatype Result<+T, +E> = Ok(value: T) | Err(error: E)
}
