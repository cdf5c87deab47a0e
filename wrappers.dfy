/** The optional value used wherever the source returns a possibly-null reference. */
module Wrappers {
  datatype Option<+T> = None | Some(value: T)
}
