/** Optional values: a pattern that may not match, a counter file that may not exist. */
module Wrappers {

  datatype Option<T> = None | Some(value: T)
}
