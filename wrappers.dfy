/** Optional values: JavaScript's `null` (an absent example index, no active word). */
module Wrappers {
  datatype Option<+T> = None | Some(value: T)
}
