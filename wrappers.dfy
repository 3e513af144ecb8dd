/** Optional values: a dictionary entry that may be missing, text that may not parse. */
module Wrappers {

  datatype Option<+T> = None | Some(value: T)
}
