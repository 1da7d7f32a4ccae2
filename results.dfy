/** Failure-carrying return values used throughout the model. */
module Results {

  datatype Option<T> = None | Some(value: T)

  /** The outcome of a step that may throw: either a value or the error it throws. */
  datatype Result<T, E> = Ok(value: T) | Err(error: E)
}
