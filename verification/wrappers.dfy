/** Optional values, standing for the `null`/`undefined` the source tests for. */
module Wrappers {

  datatype Option<+T> = None | Some(value: T)
}
