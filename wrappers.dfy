/** Small value wrappers shared by the other modules. */
module Wrappers {

  /** A value that may be absent (a host query that can fail). */
  datatype Option<+T> = None | Some(value: T)

  /** Pass, or fail with an error value (a command that exits with status 1). */
  datatype Outcome<+E> = Pass | Fail(error: E)
}
