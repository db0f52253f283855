/** Failure-carrying result types shared by every module of the model. */
module Wrappers {

  datatype Option<+T> = None | Some(value: T)

  /** The value of a call that either returns `value` or raises `error`. */
  datatype Result<+T, +E> = Success(value: T) | Failure(error: E)

  /** The value of a call that returns nothing or raises `error`. */
  datatype Outcome<+E> = Pass | Fail(error: E)
}
