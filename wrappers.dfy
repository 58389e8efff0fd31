/** Optional values, used for absent storage entries, an unset location and
    property reads that throw. */
module Wrappers {
  datatype Option<+T> = None | Some(value: T)
}
