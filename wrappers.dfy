/** The optional value returned where the program returns either a value or None. */
module Wrappers {

  datatype Option<+T> = None | Some(value: T)
}
