/** Optional values, used for every outcome that may be missing or may fail. */
module Wrappers {
  datatype Option<+T> = None | Some(value: T)
}
