/** Failure-carrying result types shared by the other modules. */
module Wrappers {

  /** A value that may be missing: stands for a Java call that throws on that input. */
  datatype Option<+T> = None | Some(value: T)

  /** A value or an error message: stands for a Java method that throws an exception. */
  datatype Result<+R, +E> = Success(value: R) | Failure(error: E)
}
