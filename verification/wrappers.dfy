/** The optional value used for Python's `None` in arguments and results. */
module Wrappers {

  datatype Option<+T> = None | Some(value: T)
}
