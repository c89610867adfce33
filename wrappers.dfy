/** The optional value used for a storage key that may be absent and a button reference that may be missing. */
module Wrappers {

  datatype Option<+T> = None | Some(value: T)
}
