/** The optional value used where Python returns None. */
module Wrappers {

  datatype Option<+T> = None | Some(value: T)
}
