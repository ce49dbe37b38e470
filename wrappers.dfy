/** Optional values, used for "no voice chosen" and for an absent attribute. */
module Wrappers {
  datatype Option<+T> = None | Some(value: T)
}
