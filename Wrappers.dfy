/** Failure-carrying wrappers used across the model: Python's `None`-or-value,
    a computation that either yields a value or fails, and a step that passes or fails. */
module Wrappers {

  datatype Option<+T> = None | Some(value: T)

  datatype Result<+R, +E> = Success(value: R) | Failure(error: E)

  datatype Outcome<+E> = Pass | Fail(error: E)
}
