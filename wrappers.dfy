/** Option and Result, the two failure-carrying datatypes the rest of the model uses. */
module Wrappers {

  /** A value that may be absent: TypeScript's `T | null` and optional `?` fields. */
  datatype Option<+T> = None | Some(value: T)

  /** The outcome of a block that either produces a value or throws. */
  datatype Result<+R, +E> = Success(value: R) | Failure(error: E)
}
