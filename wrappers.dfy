/** Failure-carrying datatypes: the model's stand-ins for Python's `None` and raised exceptions. */
module Wrappers {

  /** A value that may be absent (Python's `None`). */
  datatype Option<+T> = None | Some(value: T)

  /** A computation that either produces a value or raises an error. */
  datatype Result<+R, +E> = Ok(value: R) | Err(error: E)

  /** A state change that either completes or raises an error. */
  datatype Outcome<+E> = Pass | Fail(error: E)
}
