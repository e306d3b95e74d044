/** The optional value used wherever the source reads a row that may be missing
    (`fetchone()` returning `None`) or parses text that may be malformed. */
module Wrappers {
  datatype Option<+T> = None | Some(value: T)
}
