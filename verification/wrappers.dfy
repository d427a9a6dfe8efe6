/** The optional-value wrapper used for fields that a TypeScript object may leave undefined. */
module Wrappers {

  datatype Option<+T> = None | Some(value: T)
}
