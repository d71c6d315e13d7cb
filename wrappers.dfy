/** The optional value used wherever the element leaves a variable `undefined`. */
module Wrappers {

  datatype Option<+T> = None | Some(value: T)
}
