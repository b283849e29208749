/** Failure-carrying values used in place of Python's None and exceptions. */
module Wrappers {

  /** A value that may be absent (Python's `None`). */
  datatype Option<+T> = None | Some(value: T)

  /** The value of a call that either returns or raises; `msg` is `str(e)` of the exception. */
  datatype Result<+T> = Ok(value: T) | Err(msg: string)

  /** A call that returns nothing or raises. */
  datatype Outcome = Pass | Fail(msg: string)
}
