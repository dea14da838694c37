/** The optional value used for "inapplicable" transitions and missing rewards. */
module Wrappers {

  datatype Option<+T> = None | Some(value: T)
}
