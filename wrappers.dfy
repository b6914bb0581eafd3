/** Failure-carrying result types shared by every module of the model. */
module Wrappers {

  datatype Option<+T> = None | Some(value: T)

  /** The value of a Python call that either returns or raises. */
  datatype Result<+R, +E> = Success(value: R) | Failure(error: E)

  /** The value of a Python call that is run for its effect and either returns or raises. */
  datatype Outcome<+E> = Pass | Fail(error: E)
}
