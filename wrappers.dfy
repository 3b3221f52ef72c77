/** Optional values: a field that a decoded reply may lack, a parse that may fail. */
module Wrappers {
  datatype Option<+T> = None | Some(value: T)
}
