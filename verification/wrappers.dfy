/** The absent-or-present value that repository lookups return (java.util.Optional). */
module Wrappers {
  datatype Option<+T> = None | Some(value: T)
}
