/** Optional values: JavaScript's `null` for a state slot that may be empty. */
module Wrappers {

  datatype Option<+T> = None | Some(value: T)
}
