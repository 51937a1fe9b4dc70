/** The optional values and fallible replies shared by every module. */
module Options {

  datatype Option<+T> = None | Some(value: T)

  /** The reply of a chain endpoint: a value, or an error that may report an expired or frozen client. */
  datatype Reply<+T> = Ok(value: T) | Err(frozen: bool)

  datatype Result<+T, +E> = Success(value: T) | Failure(error: E)
}
