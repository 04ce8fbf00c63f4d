/** Optional values (Kotlin's nullable types) and results with an error (Kotlin's exceptions). */
module Wrappers {

  datatype Option<+T> = None | Some(value: T)

  datatype Result<+T, +E> = Ok(value: T) | Err(error: E)
}
