/** Optional values, used wherever the Go code has a nil pointer or an error return. */
module Base {
  datatype Option<+T> = None | Some(value: T)
}
