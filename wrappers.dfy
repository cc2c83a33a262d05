/** The optional-value type used by the parsers and the placeholder binder. */
module Wrappers {

  datatype Option<+T> = None | Some(value: T)
}
