/** Small helper types shared by the other modules. */
module Wrappers {

  /** A value that may be missing: a byte the serial receiver did or did not deliver,
      a keypad cell that was or was not found. */
  datatype Option<+T> = None | Some(value: T)
}
