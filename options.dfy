/** Optional values: the model's stand-in for a Go value that may be nil. */
module Options {

  datatype Option<+T> = None | Some(value: T)
}
