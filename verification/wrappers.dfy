/** Optional values and results with an error, for JavaScript's null,
    undefined and early error returns. */
module Wrappers {

  datatype Option<T> = None | Some(value: T)

  datatype Result<T, E> = Ok(value: T) | Err(error: E)
}
