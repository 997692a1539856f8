/** Optional values, used for the transition table and the session-storage slot. */
module Wrappers {

  datatype Option<+T> = None | Some(value: T)
}
