/** The optional value used for C's nullable pointers and out-of-range enum codes. */
module Wrappers {
  datatype Option<+T> = None | Some(value: T)
}
