/** The optional value of a record field that may be left out. */
module Wrappers {

  datatype Option<+T> = None | Some(value: T)
}
