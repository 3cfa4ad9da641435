/** Optional values, used where the analysis has a "no value" or an error path. */
module Wrappers {

  datatype Option<+T> = None | Some(value: T)
}
