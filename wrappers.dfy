/** Failure-compatible wrappers shared by the model. */
module Wrappers {

  /** A value that may be absent (a JavaScript `null` or `undefined`). */
  datatype Option<+T> = None | Some(value: T)

  /** Either a result or the error that aborted the operation. */
  datatype Result<+R, +E> = Success(value: R) | Failure(error: E)
}
