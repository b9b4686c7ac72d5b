/** The optional value used for the source's nullable pointers and for lookups that may miss. */
module Wrappers {

  datatype Option<+T> = None | Some(value: T)
}
