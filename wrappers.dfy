/** Optional values: Kotlin's nullable types (`T?`) and failed decodes. */
module Wrappers {

  datatype Option<+T> = None | Some(value: T)
}
