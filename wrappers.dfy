/** Option and Result, the two wrappers every other module uses. */
module Wrappers {

  /** A value that may be absent: a JSON key that may be missing, a lookup that may fail. */
  datatype Option<+T> = None | Some(value: T)

  /** The outcome of a step that the scripts can abort with a Python exception. */
  datatype Result<+T, +E> = Ok(value: T) | Err(error: E)
}
