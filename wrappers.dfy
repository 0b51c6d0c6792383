/** Optional values and error outcomes, shared by every module of the model. */
module Wrappers {

  /** A value that may be absent: an optional manifest field, or a lookup that can miss. */
  datatype Option<+T> = None | Some(value: T)

  /** An outcome that is either a value or an error message. */
  datatype Result<+T, +E> = Ok(value: T) | Err(error: E)
}
