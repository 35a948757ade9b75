/** Option, standing for a shared pointer that may be empty. */
module Wrappers {

  datatype Option<+T> = None | Some(value: T)
}
