/** The optional value used for the source's optional fields and lookups. */
module Wrappers {

  datatype Option<T> = None | Some(value: T)
}
