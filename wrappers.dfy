/** The optional value the source signals with `None`. */
module Wrappers {
  datatype Option<+T> = None | Some(value: T)
}
