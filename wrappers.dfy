/** Optional values, shared by the modules that need them. */
module Wrappers {

  datatype Option<T> = None | Some(value: T)
}
