/** Option and Result, the two failure-carrying datatypes the model uses. */
module Wrappers {

  /** A value that may be missing; `None` stands for JavaScript's `undefined`. */
  datatype Option<+T> = None | Some(value: T)

  /** The outcome of an operation that can fail (a thrown error or a rejected promise). */
  datatype Result<+R, +E> = Success(value: R) | Failure(error: E)
}
