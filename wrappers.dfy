/** An optional value, for page elements and display contents that may be missing. */
module Wrappers {

  datatype Option<T> = None | Some(value: T)
}
