/** The optional value used for results that can fail as a whole. */
module Wrappers {

  datatype Option<+T> = None | Some(value: T)
}
