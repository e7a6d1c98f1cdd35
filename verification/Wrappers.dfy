/** The one stock datatype every component shares: a value the source may leave `undefined`. */
module Wrappers {
  datatype Option<+T> = None | Some(value: T)
}
