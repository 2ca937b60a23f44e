/** Optional values and results shared by every module of the model. */
module Options {

  datatype Option<+T> = None | Some(value: T)

  /** The outcome of a route handler or a computation that can raise. */
  datatype Result<+T, +E> = Ok(value: T) | Err(error: E)

  /** The outcome of a handler whose success carries nothing. */
  datatype Outcome<+E> = Pass | Fail(error: E)
}
