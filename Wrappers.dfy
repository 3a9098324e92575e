/** Option type used wherever the library returns a null result or a "not found". */
module Wrappers {
  datatype Option<+T> = None | Some(value: T)
}
