/** Optional values and results with an error, used for the collaborators the pipeline talks to. */
module Wrappers {

  datatype Option<+T> = None | Some(value: T)

  datatype Result<+T, +E> = Ok(value: T) | Err(error: E)
}
