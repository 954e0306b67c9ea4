/** Result and Option values standing for the fixture's exceptions and Java nulls. */
module Wrappers {

  datatype Option<+T> = None | Some(value: T)

  datatype Result<+R, +E> = Success(value: R) | Failure(error: E)

  /** A call that returns nothing, or throws. */
  datatype Outcome<+E> = Pass | Fail(error: E)
}
