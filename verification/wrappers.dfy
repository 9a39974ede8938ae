/** The optional-value type used wherever Python returns `None` for "absent". */
module Wrappers {
  datatype Option<T> = None | Some(value: T)
}
