/** Optional values, for the results the Go code reports with an `ok` flag or a nil. */
module Wrappers {

  datatype Option<T> = None | Some(value: T)
}
