/** Option and Result: the absent values and early-exit errors of the storefront's handlers. */
module Wrappers {

  /** A value that may be missing (an absent form field, an `undefined` property, `NaN`). */
  datatype Option<+T> = None | Some(value: T)

  /** The outcome of a step that either continues with a value or stops with an error. */
  datatype Result<+R, +E> = Success(value: R) | Failure(error: E)
}
