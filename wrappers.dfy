/** The optional value used wherever the program has `undefined` or a value. */
module Wrappers {

  datatype Option<+T> = None | Some(value: T)
}
