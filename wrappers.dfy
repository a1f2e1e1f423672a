/** The optional value used for SQL NULL, a missing row and a missing argument. */
module Wrappers {

  datatype Option<+T> = None | Some(value: T)
}
