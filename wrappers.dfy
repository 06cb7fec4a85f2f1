/** The optional-value wrapper used for the injected provider handle. */
module Wrappers {
  datatype Option<+T> = None | Some(value: T)
}
