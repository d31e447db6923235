/** The Option and Result datatypes shared by the model. */
module Wrappers {

  /** A reference that may be null. */
  datatype Option<+T> = None | Some(value: T)

  /** The value of an operation, or the exception it throws. */
  datatype Result<+R, +E> = Success(value: R) | Failure(error: E)
}
