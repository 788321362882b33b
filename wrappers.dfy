/** Option and Result, the two failure-aware value shapes every procedure of the model returns. */
module Wrappers {

  /** A value that may be absent: `undefined`/`null` on the source side. */
  datatype Option<+T> = None | Some(value: T)

  /** The outcome of a procedure: its value, or the error it throws. */
  datatype Result<+T, +E> = Success(value: T) | Failure(error: E)
}
