/** The optional value used for lookups that may come back empty. */
module Wrappers {
  datatype Option<+T> = None | Some(value: T)
}
