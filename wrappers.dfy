/** Optional values: `null`/`undefined` on the source side. */
module Wrappers {

  datatype Option<+T> = None | Some(value: T)

}
