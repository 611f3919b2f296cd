/** The optional value used throughout: a null field, a missing dictionary key, a table with no row. */
module Wrappers {

  datatype Option<+T> = None | Some(value: T)

}
