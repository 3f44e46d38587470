/** Option and Result, the two failure-carrying shapes the model uses. */
module Wrappers {

  datatype Option<+T> = None | Some(value: T)

  /** The outcome of an operation that either produces a value or throws an error. */
  datatype Result<+R, +E> = Success(value: R) | Failure(error: E)
}
