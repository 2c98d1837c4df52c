/** The nullable column: SQL NULL is `None`. */
module Wrappers {
  datatype Option<+T> = None | Some(value: T)
}
