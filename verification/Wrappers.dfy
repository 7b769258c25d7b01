/** Option, used for the pointers of the kernel that may be NULL. */
module Wrappers {
  datatype Option<+T> = None | Some(value: T)
}
