/** The optional-value datatype used wherever the engine returns a null pointer. */
module Wrappers {

  datatype Option<+T> = None | Some(value: T)
}
