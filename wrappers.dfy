/** A value that may be absent: JavaScript's `undefined`, or an empty selection. */
module Wrappers {

  datatype Option<+T> = None | Some(value: T)
}
