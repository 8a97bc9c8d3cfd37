/** The optional values used throughout the model: JavaScript's `T | null` and `T | undefined`. */
module Options {
  datatype Option<+T> = None | Some(value: T)
}
