/** Failure-carrying return values used throughout the model. */
module Wrappers {

  datatype Option<+T> = None | Some(value: T)

  /** `Failure` stands for an exception raised by the modelled code. */
  datatype Result<+T, +E> = Success(value: T) | Failure(error: E)
}
