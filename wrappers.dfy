/** The optional value used for "no active file" and for failed foreign calls. */
module Wrappers {

  datatype Option<+T> = None | Some(value: T)
}
