/** An optional value: stands for the source's `null` and for the falsy "not chosen" values. */
module Wrappers {

  datatype Option<+T> = None | Some(value: T)
}
