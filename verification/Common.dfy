/** Optional values and results that may be an error. */
module Common {
  datatype Option<+T> = None | Some(value: T)

  datatype Result<+T> = Ok(value: T) | ValueError
}
