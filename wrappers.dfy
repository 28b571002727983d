/** Option and Result, standing for JavaScript's `null`/`undefined` and for thrown errors. */
module Wrappers {

  /** A value that may be absent (`null` or `undefined` in the source). */
  datatype Option<+T> = None | Some(value: T)

  /** The answer of a call that may throw: the value, or the thrown error's message. */
  datatype Result<+R, +E> = Success(value: R) | Failure(error: E)
}
