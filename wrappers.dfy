/** The conventional Some/None datatype, used for the results of parsing. */
module Wrappers {
  datatype Option<+T> = None | Some(value: T)
}
