/** Failure-carrying values used where the C# code returns null or throws. */
module Wrappers {

  /** A value that may be absent: a C# reference or Nullable that may be null. */
  datatype Option<+T> = None | Some(value: T)

  /** The result of an operation that returns nothing but may throw. */
  datatype Outcome<+E> = Pass | Fail(error: E)

  /** The result of an operation that returns a value but may throw. */
  datatype Result<+R, +E> = Success(value: R) | Failure(error: E)
}
