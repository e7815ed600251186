/** Optional values: a lookup that may find nothing, a JSON value that may be null. */
module Wrappers {
  datatype Option<+T> = None | Some(value: T)
}
