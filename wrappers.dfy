/** Option, the shape used for the source's `Option` lookups and for its panics. */
module Wrappers {

  datatype Option<+T> = None | Some(value: T)
}
