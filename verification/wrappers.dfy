/** Optional values and results with an error, shared by the other modules. */
module Wrappers {

  /** A value that may be absent: Python's `None`, or an empty (falsy) recordset. */
  datatype Option<+T> = None | Some(value: T)

  /** The outcome of an operation that either produces a value or raises. */
  datatype Result<+R, +E> = Success(value: R) | Failure(error: E)
}
