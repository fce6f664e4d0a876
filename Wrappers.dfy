/** Option, Result and Outcome: how the model writes PHP's null returns and thrown exceptions. */
module Wrappers {

  datatype Option<+T> = None | Some(value: T)

  /** A value, or the exception that was thrown instead of returning it. */
  datatype Result<+R, +E> = Success(value: R) | Failure(error: E)

  /** A check that returns `true` (Pass) or throws (Fail). */
  datatype Outcome<+E> = Pass | Fail(error: E)
}
