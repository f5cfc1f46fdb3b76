/** Optional values: stands for a Java reference that may be null, or for a
    computation that may throw. */
module Wrappers {
  datatype Option<+T> = None | Some(value: T)
}
