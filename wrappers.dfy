/** Option and Result values for the absent values and thrown errors of the application. */
module Wrappers {

  /** `None` stands for JavaScript's `null` / `undefined`. */
  datatype Option<+T> = None | Some(value: T)

  /** A computation that returns a value or throws an error carrying a message. */
  datatype Result<+R, +E> = Success(value: R) | Failure(error: E)
}
