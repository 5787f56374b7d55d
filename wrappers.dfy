/** An optional value, for arguments a caller may leave out. */
module Wrappers {
  datatype Option<T> = None | Some(value: T)
}
