/** Option and Result: the "maybe absent" values and the thrown errors of the model. */
module Wrappers {

  /** A value that may be absent (`null` / `undefined` on the source side). */
  datatype Option<+T> = None | Some(value: T)

  /** The outcome of an operation that either returns a value or throws an error. */
  datatype Result<+R, +E> = Success(value: R) | Failure(error: E)
}
