/** Optional values: `None` stands for a missing key or a JavaScript NaN. */
module Wrappers {

  datatype Option<+T> = None | Some(value: T)
}
