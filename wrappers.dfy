/** Failure-compatible wrappers shared by every module of the model. */
module Wrappers {

  /** An optional value: a storage item that may not have been saved yet. */
  datatype Option<+T> = None | Some(value: T)

  /** The outcome of an operation that can fail with an error of type E. */
  datatype Result<+T, +E> = Ok(value: T) | Err(error: E)
}
