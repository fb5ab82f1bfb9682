/** Optional values and fallible results, as used for Python's `None` and raised errors. */
module Options {

  datatype Option<+T> = None | Some(value: T)

  datatype Result<+T, +E> = Ok(value: T) | Err(error: E)
}
