/** The absent-or-present value used wherever the source may produce `undefined`, `NaN` or `null`. */
module Wrappers {
  datatype Option<T> = None | Some(value: T)
}
