/** The optional value used for missing blocking keys and failed key parses. */
module Wrappers {

  datatype Option<+T> = None | Some(value: T)
}
