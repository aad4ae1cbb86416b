/** The optional-value datatype used for absent anchors and absent tag buttons. */
module Wrappers {
  datatype Option<+T> = None | Some(value: T)
}
