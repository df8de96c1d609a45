/** Optional values, used wherever the hub's code may hold or return None. */
module Wrappers {
  datatype Option<+T> = None | Some(value: T)
}
