/** Option and Result, the two failure-carrying wrappers the model uses. */
module Wrappers {

  /** Go's nilable value: `None` plays the part of `nil`. */
  datatype Option<+T> = None | Some(value: T)

  /** The outcome of a step: a value, or the error that stopped it. */
  datatype Result<+R, +E> = Success(value: R) | Failure(error: E)
}
