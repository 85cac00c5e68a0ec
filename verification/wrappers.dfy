/** Option and Result, the two failure-carrying values used throughout the model. */
module Wrappers {

  datatype Option<+T> = None | Some(value: T)

  /** The outcome of an operation that the source ends either with a value or with a thrown error. */
  datatype Result<+R, +E> = Ok(value: R) | Err(error: E)
}
