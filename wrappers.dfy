/** Python's `None` and raised errors, as values. */
module Wrappers {

  /** A value that may be absent (`None` in the source). */
  datatype Option<T> = None | Some(value: T)

  /** A value, or the name of the exception the source raises instead. */
  datatype Result<T> = Success(value: T) | Failure(error: string)
}
