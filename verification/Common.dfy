/** Option and Result values, used where the Go code returns a pointer that may be nil or an error. */
module Common {
  datatype Option<+T> = None | Some(value: T)

  datatype Result<+T, +E> = Ok(value: T) | Err(error: E)
}
