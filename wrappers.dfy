// An optional value, for the fields and lookups the application leaves
// undefined.

module Wrappers {
  datatype Option<T> = None | Some(value: T)
}
