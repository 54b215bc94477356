/** Failure-carrying return types shared by the other modules. */
module Wrappers {

  datatype Option<+T> = None | Some(value: T)

  /** A value, or the error that stopped the computation that should have produced it. */
  datatype Result<+T, +E> = Success(value: T) | Failure(error: E)

  /** A check that either passes or names the reason it failed. */
  datatype Outcome<+E> = Pass | Fail(error: E)
}
