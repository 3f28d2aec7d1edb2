/** The optional value used where the widget keeps `null` or skips a result. */
module Wrappers {
  datatype Option<+T> = None | Some(value: T)
}
