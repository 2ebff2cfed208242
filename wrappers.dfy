/** The optional value used where the source returns nothing or something. */
module Wrappers {

  datatype Option<+T> = None | Some(value: T)
}
