/** The optional-value datatype used for table look-ups that may miss. */
module Wrappers {

  datatype Option<+T> = None | Some(value: T)
}
