/** Optional values (pandas' null cells) and results that carry an error (the exceptions the Python code raises). */
module Wrappers {

  datatype Option<+T> = None | Some(value: T)

  datatype Result<+T, +E> = Ok(value: T) | Err(error: E)
}
