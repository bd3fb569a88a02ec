/** Option and Result: the absent-or-present and success-or-error values of the ledger. */
module Wrappers {

  /** A value that may be absent: a missing dictionary key, a JSON null, a value of the wrong type. */
  datatype Option<+T> = None | Some(value: T)

  /** The outcome of an operation that either produces a value or stops with an error. */
  datatype Result<+R, +E> = Success(value: R) | Failure(error: E)
}
