/** Optional values and fallible results, shared by every module of the model. */
module Wrappers {

  /** A value that may be absent: Go's nil pointer or an `omitempty` field left out. */
  datatype Option<+T> = None | Some(value: T)

  /** The outcome of a step that can fail with an error of type `E`. */
  datatype Result<+T, +E> = Ok(value: T) | Err(error: E)
}
