/** The outcome of an operation that can fail, named after the Rust `Result` it models. */
module Outcomes {
  datatype Result<+T, +E> = Ok(value: T) | Err(error: E)

  datatype Option<+T> = None | Some(value: T)
}
