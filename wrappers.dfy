/** Option and Result, the two failure-carrying wrappers used throughout the model. */
module Wrappers {

  datatype Option<+T> = None | Some(value: T)

  /** Either a value or the exception that Python code would raise instead. */
  datatype Result<+R, +E> = Success(value: R) | Failure(error: E)
}
