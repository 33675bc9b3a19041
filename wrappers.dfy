/** Optional values: a nullable column, a JSON field that may be missing. */
module Wrappers {
  datatype Option<+T> = None | Some(value: T)
}
