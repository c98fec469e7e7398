/** An optional value, used for the optional fields of the records and for parse results. */
module Wrappers {
  datatype Option<+T> = None | Some(value: T)
}
