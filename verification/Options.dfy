/** A value that may be absent; the model's form of null, undefined and a missing file. */
module Options {
  datatype Option<+T> = None | Some(value: T)
}
