/** The optional value used for Python's `None` and for an absent result. */
module Wrappers {

  datatype Option<+T> = None | Some(value: T)

}
