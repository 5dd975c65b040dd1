/** An optional value: an absent browser capability, an unset inline style. */
module Wrappers {
  datatype Option<+T> = None | Some(value: T)
}
