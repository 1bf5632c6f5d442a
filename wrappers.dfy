/** Optional values, used for JavaScript's `undefined`/`null`/`-1` results. */
module Wrappers {

  datatype Option<+T> = None | Some(value: T)

}
