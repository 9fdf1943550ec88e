/** Failure-carrying results used in place of the client's exceptions. */
module Wrappers {

  datatype Option<+T> = None | Some(value: T)

  /** A computed value, or the error the client would raise instead. */
  datatype Result<+R, +E> = Success(value: R) | Failure(error: E)

  /** Completion of an operation that yields nothing but may fail. */
  datatype Outcome<+E> = Pass | Fail(error: E)
}
