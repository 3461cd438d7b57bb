/** Python's optional values: `None`, or some value. */
module Wrappers {
  datatype Option<T> = None | Some(value: T)
}
