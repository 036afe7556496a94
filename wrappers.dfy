/** The optional value used for Python's `None` defaults and for calls that raise. */
module Wrappers {
  datatype Option<T> = None | Some(value: T)
}
