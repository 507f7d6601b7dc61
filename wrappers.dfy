/** Failure-carrying result types shared by the whole model. */
module Wrappers {

  datatype Option<+T> = None | Some(value: T)

  datatype Result<+T, +E> = Ok(value: T) | Err(error: E)

  /** The outcome of a Go call that returns `(T, error)` and may also panic.
      A panic is not an error value: it unwinds every caller unchanged. */
  datatype Outcome<+T, +E> = Success(value: T) | Failure(error: E) | Panic
}
