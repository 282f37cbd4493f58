/** Failure-carrying result types shared by every module of the model. */
module Basics {

  /** A value that may be missing: Go's nil pointer, an unset variable, a failed lookup. */
  datatype Option<+T> = None | Some(value: T)

  /** The outcome of a Go function that returns only an `error`. */
  datatype Outcome<+E> = Pass | Fail(error: E)

  /** The outcome of a Go function that returns a value and an `error`. */
  datatype Result<+T, +E> = Ok(value: T) | Err(error: E)
}
