/** Option, for the places where the source yields a value or nothing (None in Python). */
module Wrappers {

  datatype Option<+T> = None | Some(value: T)
}
