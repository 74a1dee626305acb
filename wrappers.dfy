/** Option, as used for cells that may be missing and for label lookups that may fail. */
module Wrappers {

  datatype Option<+T> = None | Some(value: T)
}
