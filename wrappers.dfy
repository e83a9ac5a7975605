/** Optional values, for state that the code in this model never sets. */
module Wrappers {
  datatype Option<+T> = None | Some(value: T)
}
