/** Optional values: a nullable database column. */
module Wrappers {
  datatype Option<+T> = None | Some(value: T)
}
