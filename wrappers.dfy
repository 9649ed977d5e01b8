/** The optional value used for "nothing stored under this key". */
module Wrappers {

  datatype Option<+T> = None | Some(value: T)
}
