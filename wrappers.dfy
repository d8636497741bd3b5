/** The optional value used wherever the compiler front end may leave a lookup unresolved. */
module Wrappers {
  datatype Option<+T> = None | Some(value: T)
}
