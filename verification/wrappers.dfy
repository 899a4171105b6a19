/** Failure-carrying datatypes shared by the model. */
module Wrappers {

  /** A value that may be absent: Go's nil pointer or nil interface. */
  datatype Option<+T> = None | Some(value: T)

  /** The outcome of a collaborator call that either succeeds or fails. */
  datatype Result<+R, +E> = Success(value: R) | Failure(error: E)
}
