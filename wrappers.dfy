/** Optional values: a C pointer that may be NULL, or a `read` that may return no byte. */
module Wrappers {
  datatype Option<+T> = None | Some(value: T)
}
