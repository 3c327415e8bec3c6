/** Optional values: a JavaScript `string | undefined` is an `Option<string>`. */
module Wrappers {

  datatype Option<+T> = None | Some(value: T)
}
