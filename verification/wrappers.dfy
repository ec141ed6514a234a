/** Optional values, used where the script's values may be absent (`undefined`). */
module Wrappers {

  datatype Option<+T> = None | Some(value: T)
}
