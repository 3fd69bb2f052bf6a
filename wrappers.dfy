/** Failure-carrying result types shared by the storage backends. */
module Wrappers {

  /** A value that may be missing; None stands for JavaScript's `null` or `undefined`. */
  datatype Option<+T> = None | Some(value: T)

  /** The settled value of a promise: fulfilled with a value or rejected with an error. */
  datatype Result<+T, +E> = Success(value: T) | Failure(error: E)

  /** The settled value of a `Promise<void>`: it resolves or it is rejected with an error. */
  datatype Outcome<+E> = Pass | Fail(error: E)
}
