/** The optional value returned by Python's `dict.get` and `str.find`. */
module Wrappers {

  datatype Option<+T> = None | Some(value: T)
}
