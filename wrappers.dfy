/** Optional values, used for lookups that may find nothing and for a reply
    body that may not decode. */
module Wrappers {
  datatype Option<+T> = None | Some(value: T)
}
