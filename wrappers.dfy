/** Option, for the values that JavaScript represents as `null` or `undefined`. */
module Wrappers {

  datatype Option<+T> = None | Some(value: T)
}
