/** Optional values, used where the program has a nil reference or a missing entry. */
module Wrappers {
  datatype Option<+T> = None | Some(value: T)
}
