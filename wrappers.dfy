/** Failure-compatible result types used across the model.
    `Option` stands for TypeScript's `T | undefined`, `Result` and `Outcome`
    for operations that either produce a value or throw. */
module Wrappers {

  datatype Option<+T> = None | Some(value: T)

  datatype Result<+R, +E> = Success(value: R) | Failure(error: E)

  datatype Outcome<+E> = Pass | Fail(error: E)
}
