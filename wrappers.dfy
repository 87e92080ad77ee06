/** Optional values, used for "no spike ahead" and for labels that do not parse. */
module Wrappers {
  datatype Option<+T> = None | Some(value: T)
}
