/** The optional-value idiom used for operations that a module variant does not implement. */
module Wrappers {
  datatype Option<+T> = None | Some(value: T)
}
