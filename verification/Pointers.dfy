/** A pointer that may be NULL. */
module Pointers {
  datatype Option<+T> = None | Some(value: T)
}
