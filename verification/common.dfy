/** Failure-carrying values shared by every module of the model. */
module Common {

  /** A value that may be absent: Python's `None` versus a value. */
  datatype Option<+T> = None | Some(value: T)

  /** The outcome of a step that either yields a value or an error message. */
  datatype Result<+T, +E> = Ok(value: T) | Err(error: E)
}
