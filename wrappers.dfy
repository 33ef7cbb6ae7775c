/** Plain nullable and result datatypes used throughout the model. */
module Wrappers {

  /** A nullable reference: `None` stands for Kotlin's `null`. */
  datatype Option<+T> = None | Some(value: T)

  /** The outcome of an operation that may throw. */
  datatype Result<+R, +E> = Success(value: R) | Failure(error: E)
}
