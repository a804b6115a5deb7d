/** The value a pointer, a lookup or an optional argument may lack. */
module Wrappers {
  datatype Option<+T> = None | Some(value: T)
}
