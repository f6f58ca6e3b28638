/** Option and Result, used for the lookups and failures of the notification model. */
module Wrappers {

  datatype Option<+T> = None | Some(value: T)

  /** The outcome of an operation that the original code may abort with an exception. */
  datatype Result<+R, +E> = Success(value: R) | Failure(error: E)
}
