/** Optional values, standing for the JavaScript `null`/`undefined` returns of the source. */
module Wrappers {
  datatype Option<+T> = None | Some(value: T)
}
