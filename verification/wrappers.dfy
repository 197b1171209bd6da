/** Optional values and success-or-error results, used for JavaScript's `undefined` fields
    and for the error responses of the request handlers. */
module Wrappers {

  datatype Option<+T> = None | Some(value: T)

  /** The result of an operation that yields a value or fails with an error. */
  datatype Result<+T, +E> = Ok(value: T) | Err(error: E)

  /** The result of an operation that yields nothing or fails with an error. */
  datatype Outcome<+E> = Pass | Fail(error: E)
}
