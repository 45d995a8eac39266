/** Optional values and results that stand for the source's None and exceptions. */
module Wrappers {
  datatype Option<+T> = None | Some(value: T)

  /** A returned value, or the exception that ended the call. */
  datatype Result<+T, +E> = Ok(value: T) | Raised(error: E)
}
