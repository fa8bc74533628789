/** Optional values: a JavaScript `null` (or a parse that gave NaN) is `None`. */
module Wrappers {
  datatype Option<+T> = None | Some(value: T)
}
