/** Optional values, standing in for Go's nil-able results (a nil error, a
    nil shutdown function). */
module Wrappers {

  datatype Option<+T> = None | Some(value: T)
}
