/** The error kinds the two containers raise, and the wrappers that carry them
    back to the caller in place of a C++ exception. */
module Errors {

  datatype Error =
    | InvalidSize        // negative size, or a size above the capacity limit
    | InvalidStartIndex  // start index outside 0..size
    | IndexOutOfRange    // subscript outside the addressable range
    | SizeMismatch       // binary operation on containers of different shape

  /** Either the value an operation produced or the error it raised. */
  datatype Result<T> = Success(value: T) | Failure(error: Error)

  /** The outcome of an operation that produces no value, such as a write. */
  datatype Outcome = Pass | Fail(error: Error)
}
