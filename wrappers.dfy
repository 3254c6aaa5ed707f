/** The optional value used for the single-slot token store and for parsers. */
module Wrappers {

  datatype Option<+T> = None | Some(value: T)
}
