/** Optional values, used for what the PATH resolver returns. */
module Wrappers {

  /** `None` stands for Python's `None`; `Some(v)` for a present value `v`. */
  datatype Option<+T> = None | Some(value: T)
}
