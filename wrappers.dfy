/** The Option and Result datatypes shared by the other modules. */
module Wrappers {

  /** A value that may be absent (JavaScript's `undefined`). */
  datatype Option<+T> = None | Some(value: T)

  /** Either a normal return value or a thrown error. */
  datatype Result<+R, +E> = Success(value: R) | Failure(error: E)
}
