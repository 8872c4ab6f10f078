/** The conventional optional value, used for configuration slots that may be unset. */
module Wrappers {

  datatype Option<+T> = None | Some(value: T)
}
