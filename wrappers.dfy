/** The optional value used where a lookup of the calculator can come back empty. */
module Wrappers {
  datatype Option<+T> = None | Some(value: T)
}
