/** The failure-carrying datatypes shared by every module of the model. */
module Wrappers {

  /** A value that may be absent: Python's `None` or a missing dictionary key. */
  datatype Option<+T> = None | Some(value: T)

  /** An operation that either returns a value or raises; `Failure` carries the exception text. */
  datatype Result<+T> = Success(value: T) | Failure(error: string)
}
