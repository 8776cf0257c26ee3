/** An optional value, for NULL pointers and for values that may be absent. */
module Wrappers {
  datatype Option<T> = None | Some(value: T)
}
