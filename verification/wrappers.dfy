/** Optional values, used for Go's `error` results (None stands for a nil error). */
module Wrappers {

  datatype Option<+T> = None | Some(value: T)
}
