/** Option, the model of an optional field or an `undefined` result. */
module Wrappers {

  datatype Option<+T> = None | Some(value: T)
}
