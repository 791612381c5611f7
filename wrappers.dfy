/** Optional values: JavaScript's `null` result and "not an array" input. */
module Wrappers {
  datatype Option<+T> = None | Some(value: T)
}
