/** Optional values and error results, as the Swift code uses `Optional` and failing operations. */
module Wrappers {

  datatype Option<T> = None | Some(value: T)

  datatype Result<T, E> = Ok(value: T) | Err(error: E)
}
