/** Small optional-value datatype shared by the models. */
module Wrappers {

  /** A value that may be absent: a null pointer, an `end()` iterator, an empty SoundPtr. */
  datatype Option<+T> = None | Some(value: T)
}
