/** The optional value used wherever the editor may or may not have a result. */
module Wrappers {
  datatype Option<+T> = None | Some(value: T)
}
