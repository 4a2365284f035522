/** Optional values, used for fields the source only sets under a condition. */
module Wrappers {

  datatype Option<+T> = None | Some(value: T)
}
