/** Option: a value that may be absent (a stored record, a query parameter, an optional form field). */
module Wrappers {
  datatype Option<+T> = None | Some(value: T)
}
