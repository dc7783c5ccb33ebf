/** The optional value used for the keyboard's handler slots and for the
    initial text handed to `open`. */
module Wrappers {

  datatype Option<+T> = None | Some(value: T)
}
