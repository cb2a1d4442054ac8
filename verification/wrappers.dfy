/** Optional values: the harness passes an optional message as a nullable C string. */
module Wrappers {

  datatype Option<+T> = None | Some(value: T)
}
