/** Optional values: a JavaScript `null` or `undefined` field becomes `None`. */
module Wrappers {
  datatype Option<+T> = None | Some(value: T)
}
