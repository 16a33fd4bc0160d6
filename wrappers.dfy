/** The conventional optional value, used for attributes and options that may be undefined. */
module Wrappers {
  datatype Option<+T> = None | Some(value: T)
}
