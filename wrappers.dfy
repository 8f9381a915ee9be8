/** Optional values, used for the results of the parsing partners of the formatting functions. */
module Wrappers {
  datatype Option<+T> = None | Some(value: T)
}
