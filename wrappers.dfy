/** Option and Result, the failure-carrying values the rest of the model returns. */
module Wrappers {

  datatype Option<+T> = None | Some(value: T)

  /** Either a value or the error that Python would have raised. */
  datatype Result<+T, +E> = Success(value: T) | Failure(error: E)
}
