/** Optional values, used for missing rows, missing bindings and entries without a deadline. */
module Wrappers {
  datatype Option<+T> = None | Some(value: T)
}
