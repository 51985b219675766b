/** The optional value used for absent query parameters and failed lookups. */
module Wrappers {
  datatype Option<+T> = None | Some(value: T)
}
