/** The `Option` and `Result` datatypes used throughout the model. */
module Results {

  /** An optional value: a lookup that may miss, a response that may not be sent. */
  datatype Option<+T> = None | Some(value: T)

  /** A computation that either produces a value or raises an exception. */
  datatype Result<+T, +E> = Ok(value: T) | Err(error: E)
}
