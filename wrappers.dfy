/** An optional value, used for configuration fields that may be absent. */
module Wrappers {
  datatype Option<+T> = None | Some(value: T)
}
