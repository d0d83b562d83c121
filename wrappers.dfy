/** Optional values: a JavaScript `undefined` / `null`, or a present value. */
module Wrappers {

  datatype Option<+T> = None | Some(value: T)
}
