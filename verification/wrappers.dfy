/** Failure-compatible wrappers used throughout the model. */
module Wrappers {

  /** An optional value: the result of a partial operation such as a lookup or a decode. */
  datatype Option<+T> = None | Some(value: T)

  /** Either a value or the error that stopped the computation. */
  datatype Result<+T, +E> = Success(value: T) | Failure(error: E)
}
