/** Failure-carrying results shared by the modules of this model. */
module Wrappers {

  datatype Option<+T> = None | Some(value: T)

  /** The outcome of an operation that either returns a value or throws an error. */
  datatype Result<+T, +E> = Success(value: T) | Failure(error: E)
}
