/** Failure-compatible wrappers used by the rest of the model. */
module Wrappers {

  /** A value that may be absent: a missing JSON key, an empty dictionary. */
  datatype Option<+T> = None | Some(value: T)

  /** The result of a step that either succeeds or raises an exception. */
  datatype Result<+T, +E> = Ok(value: T) | Err(error: E)
}
