/** The optional value used for a failed decode, a missing attribute and a missing sender. */
module Wrappers {

  datatype Option<+T> = None | Some(value: T)
}
