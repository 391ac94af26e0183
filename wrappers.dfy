/** Optional values: a JavaScript `null`/`undefined` (or an absent optional
    property) is `None`. */
module Wrappers {

  datatype Option<+T> = None | Some(value: T)
}
