/** Optional values, for the arguments the source may pass as NULL. */
module Wrappers {
  datatype Option<+T> = None | Some(value: T)
}
