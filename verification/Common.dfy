/** Results shared by the modules: a value, or the error code the source throws. */
module Common {
  datatype Option<+T> = None | Some(value: T)

  datatype Result<+T> = Ok(value: T) | Err(code: string)
}
