/** The Option datatype used for Go's nil-able pointers and for fallible oracles. */
module Wrappers {

  /** `None` stands for a nil pointer or a failed conversion; `Some(v)` for a present value. */
  datatype Option<+T> = None | Some(value: T)
}
