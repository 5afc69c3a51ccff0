/** Optional values and results with an error, as the rest of the model uses them. */
module Wrappers {

  /** `undefined` or a value. */
  datatype Option<+T> = None | Some(value: T)

  /** A returned value or a thrown error. */
  datatype Result<+T, +E> = Ok(value: T) | Err(error: E)
}
