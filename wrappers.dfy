/** Optional values: a JavaScript `T | null` prop is an `Option<T>` here. */
module Wrappers {
  datatype Option<+T> = None | Some(value: T)
}
