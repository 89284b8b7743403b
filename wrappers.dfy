/** A value that may be absent: JavaScript's `undefined` field, or an optional result. */
module Wrappers {
  datatype Option<+T> = None | Some(value: T)
}
