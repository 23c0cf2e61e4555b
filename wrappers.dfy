/** The absent-or-present value used for every reference that may fail to resolve. */
module Wrappers {

  datatype Option<+T> = None | Some(value: T)
}
