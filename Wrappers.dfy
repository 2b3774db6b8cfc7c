/** The absent-or-present and value-or-error results used across the model. */
module Wrappers {

  /** A value that may be missing (a JavaScript `undefined`). */
  datatype Option<+T> = None | Some(value: T)

  /** A computation that returns a value or raises an error. */
  datatype Result<+T, +E> = Ok(value: T) | Err(error: E)
}
