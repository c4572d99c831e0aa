/** The optional value used wherever the source tests a field for
    `undefined`/`null` rather than for truthiness. */
module Wrappers {
  datatype Option<+T> = None | Some(value: T)
}
