/** Failure-carrying values used in place of the source's exceptions and `None` results. */
module Wrappers {

  datatype Option<+T> = None | Some(value: T)

  datatype Result<+R, +E> = Success(value: R) | Failure(error: E)

  /** A result without a value: the request either went through or raised `error`. */
  datatype Outcome<+E> = Pass | Fail(error: E)
}
