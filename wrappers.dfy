/** Optional values, used for JSON fields that may be `null`. */
module Wrappers {

  datatype Option<+T> = None | Some(value: T)
}
