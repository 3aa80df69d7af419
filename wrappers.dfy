/** The optional value PHP expresses as "a record or null". */
module Wrappers {
  datatype Option<+T> = None | Some(value: T)
}
