/** Optional values: Kotlin's nullable types (`T?`) become `Option<T>`. */
module Wrappers {

  datatype Option<+T> = None | Some(value: T)
}
