/** Optional values, used for JavaScript's `undefined`/`null` and for operations that may raise. */
module Wrappers {
  datatype Option<+T> = None | Some(value: T)
}
