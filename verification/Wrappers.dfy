// The optional value used throughout for nullable columns.
module Wrappers {
  datatype Option<+T> = None | Some(value: T)
}
