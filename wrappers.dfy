/** Optional values and results that carry an error message. */
module Wrappers {
  datatype Option<T> = None | Some(value: T)

  /** A value, or the text of the exception that was raised instead (`str(e)`). */
  datatype Result<T> = Ok(value: T) | Err(error: string)
}
