/** Optional values and results shared by the modules of this model. */
module Wrappers {

  /** A value that may be absent: JavaScript's `undefined` / a missing key. */
  datatype Option<+T> = None | Some(value: T)

  /** The outcome of a validation: the validated data or the list of issues. */
  datatype Result<+R, +E> = Ok(value: R) | Err(error: E)
}
