/** The optional value used for the source's nullable fields and optional arguments. */
module Wrappers {
  datatype Option<+T> = None | Some(value: T)
}
