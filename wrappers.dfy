/** Option and Result, the failure-carrying values used across the model. */
module Wrappers {

  datatype Option<+T> = None | Some(value: T)

  /** The outcome of an operation that raises on failure in the original program. */
  datatype Result<+T, +E> = Ok(value: T) | Err(error: E)
}
