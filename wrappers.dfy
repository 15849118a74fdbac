/** The optional value used wherever the source uses `Option`. */
module Wrappers {
  datatype Option<+T> = None | Some(value: T)
}
