/** The usual Some/None datatype, used for outcomes that may fail. */
module Wrappers {
  datatype Option<+T> = None | Some(value: T)
}
