/** The conventional optional value, used where the source has a nil pointer. */
module Wrappers {

  datatype Option<+T> = None | Some(value: T)

}
