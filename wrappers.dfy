/** Optional values: a request field or a lookup that may be absent. */
module Wrappers {
  datatype Option<+T> = None | Some(value: T)
}
