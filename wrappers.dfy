/** Optional values: a reference that may be null, a parent that may be absent. */
module Wrappers {
  datatype Option<+T> = None | Some(value: T)
}
