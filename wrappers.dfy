/** The optional value used for fetch results and `float()` conversions. */
module Wrappers {

  datatype Option<+T> = None | Some(value: T)
}
