/** The optional value of Python's `None`-able arguments and attributes. */
module Wrappers {

  datatype Option<+T> = None | Some(value: T)
}
