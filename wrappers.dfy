/** Failure-compatible wrappers shared by the whole model. */
module Wrappers {

  /** A value that may be absent (a JavaScript `null`/`undefined` slot). */
  datatype Option<+T> = None | Some(value: T)

  /** A value or the error a Node-style callback would have received. */
  datatype Result<+T, +E> = Ok(value: T) | Err(error: E)
}
