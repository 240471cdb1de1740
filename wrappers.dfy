module Wrappers {
  /** A value that may be absent: JavaScript's `undefined` for an unset field. */
  datatype Option<T> = None | Some(value: T)
}
