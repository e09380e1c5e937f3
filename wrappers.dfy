/** Optional values: a failing step or error that may be absent, and a child that may not have run. */
module Wrappers {
  datatype Option<+T> = None | Some(value: T)
}
