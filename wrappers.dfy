/** Optional values, for the source's nil pointers and error returns. */
module Wrappers {

  datatype Option<+T> = None | Some(value: T)
}
