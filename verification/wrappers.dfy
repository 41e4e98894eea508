/** Optional values, used for attributes the scripts may leave out and for
    steps that may fail. */
module Wrappers {
  datatype Option<+T> = None | Some(value: T)
}
