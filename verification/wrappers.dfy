/** Failure-carrying result types shared by the workout model. */
module Wrappers {

  /** A value that may be missing; stands for Python's `None`. */
  datatype Option<+T> = None | Some(value: T)

  /** The outcome of a computation that can raise: a value, or the error raised. */
  datatype Result<+R, +E> = Success(value: R) | Failure(error: E)
}
