/** Failure-carrying value types shared by the KYC modules. */
module Wrappers {

  /** A value that may be absent: Python's `None` or an engine call that raised. */
  datatype Option<+T> = None | Some(value: T)

  /** An operation that either yields a value or fails with an error, in place of a raised exception. */
  datatype Result<+T, +R> = Ok(value: T) | Err(error: R)
}
