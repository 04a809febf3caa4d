/** Option, the one wrapper the model needs for values the source leaves undefined. */
module Wrappers {

  datatype Option<+T> = None | Some(value: T)
}
