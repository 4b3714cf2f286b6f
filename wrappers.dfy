/** The optional value used for storage that may be absent and for results that may not exist. */
module Wrappers {

  datatype Option<+T> = None | Some(value: T)
}
