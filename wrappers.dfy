/** The Option type shared by the decoders and parsers of the project. */
module Wrappers {

  /** An optional value: `None` stands for a Python exception or a missing value. */
  datatype Option<+T> = None | Some(value: T)
}
