/** The optional values the Python code writes as None or a value. */
module Wrappers {
  datatype Option<T> = None | Some(value: T)
}
