/** Optional values: Python's `None`-or-value, as used for the batch cache. */
module Wrappers {
  datatype Option<+T> = None | Some(value: T)
}
