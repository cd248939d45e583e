/** The optional value used wherever the source returns `null` (or parses to NaN). */
module Wrappers {

  datatype Option<+T> = None | Some(value: T)
}
