/** Optional values and error-or-value results, used in place of the null
    pointers and exceptions of the modelled C++ code. */
module Results {

  /** A possibly absent value: `None` plays the part of a null pointer. */
  datatype Option<+T> = None | Some(value: T)

  /** Either a value or the error a C++ call would have thrown. */
  datatype Result<+T, +E> = Ok(value: T) | Err(error: E)
}
