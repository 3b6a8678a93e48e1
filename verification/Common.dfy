/** Small datatypes shared by every component. */
module Common {

  datatype Option<+T> = None | Some(value: T)

  /** The outcome of an operation that the source ends by returning or by throwing. */
  datatype Result<+T, +E> = Ok(value: T) | Err(error: E)
}
