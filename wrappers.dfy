/** Failure-carrying values used throughout the model. */
module Wrappers {

  /** An optional value: the source's `undefined` (or `null`) versus a present value. */
  datatype Option<+T> = None | Some(value: T)

  /** A computed value or a thrown error. */
  datatype Result<+T, +E> = Ok(value: T) | Err(error: E)
}
