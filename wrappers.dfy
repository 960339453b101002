/** The optional value used for absent JSON fields and failed lookups. */
module Wrappers {

  datatype Option<+T> = None | Some(value: T)
}
