/** Go's nil-able values (a nil slice, a nil pointer, a failed parse). */
module Wrappers {
  datatype Option<+T> = None | Some(value: T)
}
