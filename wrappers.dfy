/** Option and Result types, and the Python exceptions the reader can raise. */
module Wrappers {

  datatype Option<+T> = None | Some(value: T)

  /** The Python exception classes raised by the reader. */
  datatype PyError =
    | AssertionError  // a failed `assert` on the subshell argument
    | IndexError      // list or array index out of range
    | ValueError      // int() or float() rejected its text
    | TypeError       // a list indexed by None

  /** A value, or the exception that aborted the computation. */
  datatype Result<+T> = Ok(value: T) | Raised(error: PyError) {
    predicate IsFailure() {
      Raised?
    }

    function PropagateFailure<U>(): Result<U>
      requires Raised?
    {
      Raised(error)
    }

    function Extract(): T
      requires Ok?
    {
      value
    }
  }
}
