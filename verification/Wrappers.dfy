/** Optional values, used for nullable columns and for the parser's pending entry. */
module Wrappers {
  datatype Option<+T> = None | Some(value: T)
}
