/** The optional value used wherever the server returns null, throws, or has nothing to do. */
module Wrappers {

  datatype Option<+T> = None | Some(value: T)
}
