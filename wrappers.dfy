/** Failure-compatible wrappers shared by the rest of the model. */
module Wrappers {

  /** A Go reference or error that may be nil. */
  datatype Option<+T> = None | Some(value: T)

  /** A value or the error that prevented computing it. */
  datatype Result<+T, +E> = Success(value: T) | Failure(error: E)
}
