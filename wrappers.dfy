/** Success/failure values standing in for the source's thrown exceptions. */
module Wrappers {

  /** A computed value, or the error the source would have thrown instead. */
  datatype Result<+R, +E> = Success(value: R) | Failure(error: E)

  /** Success without a value (a `void` function that returned normally), or a thrown error. */
  datatype Outcome<+E> = Pass | Fail(error: E)
}
