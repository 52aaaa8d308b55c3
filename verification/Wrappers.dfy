/** Optional values, used throughout for "nil or a value". */
module Wrappers {
  datatype Option<+T> = None | Some(value: T)
}
