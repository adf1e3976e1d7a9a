/** The optional value used where the C code has a pointer that may be NULL
    or a parse that may fail. */
module Wrappers {
  datatype Option<+T> = None | Some(value: T)
}
