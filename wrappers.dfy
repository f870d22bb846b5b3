/** The optional value used for inputs that may be missing or may run out. */
module Wrappers {

  datatype Option<+T> = None | Some(value: T)
}
