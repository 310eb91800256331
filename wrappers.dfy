/** The optional value used for "the pointer ray may miss the ground plane". */
module Wrappers {
  datatype Option<+T> = None | Some(value: T)
}
