/** Optional values and fallible results, used for the backbone's optional
    shortcut and for the errors its constructor and the model lookup raise. */
module Wrappers {

  datatype Option<+T> = None | Some(value: T)

  datatype Result<+T, +E> = Ok(value: T) | Err(error: E)
}
