/** The optional value used for header lookups and the origin decision. */
module Wrappers {

  datatype Option<+T> = None | Some(value: T)
}
