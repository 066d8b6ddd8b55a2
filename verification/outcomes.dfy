/**
 Failure-carrying values used where the modelled code either produces a value,
 returns nothing, or throws.
 */
module Outcomes {

  /** A value that may be absent. */
  datatype Option<+T> = None | Some(value: T)

  /** A value, or the message of the error that was thrown instead. */
  datatype Result<+R, +E> = Success(value: R) | Failure(error: E)

  /** Completion of an action that returns nothing but may throw. */
  datatype Outcome<+E> = Pass | Fail(error: E)
}
