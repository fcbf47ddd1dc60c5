/** The optional value used for absent metadata fields and for "no match". */
module Wrappers {
  datatype Option<+T> = None | Some(value: T)
}
