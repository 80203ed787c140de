/** Optional values and results with an error, shared by the frontend and backend models. */
module Wrappers {

  /** A value that may be absent (`null` / `undefined` in JavaScript, `None` in Python). */
  datatype Option<+T> = None | Some(value: T)

  /** The outcome of an operation that either produces a value or raises an error. */
  datatype Result<+T, +E> = Ok(value: T) | Err(error: E)
}
