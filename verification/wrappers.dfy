/** Optional values, standing in for JavaScript's `undefined`/`null`. */
module Wrappers {

  /** `None` is an absent value (`undefined` or `null`); `Some` carries a present one. */
  datatype Option<+T> = None | Some(value: T)
}
