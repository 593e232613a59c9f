/** Optional values: a Go nil pointer, a nil error or a nil func field. */
module Wrappers {
  datatype Option<+T> = None | Some(value: T)
}
