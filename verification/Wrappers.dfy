/** The one result shape that every component needs. */
module Wrappers {

  datatype Option<+T> = None | Some(value: T)
}
