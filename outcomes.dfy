/** Python exceptions and optional values, as values. */
module Outcomes {

  datatype Option<T> = None | Some(value: T)

  /** The exceptions the context-file engine can raise. */
  datatype Exc =
    | IndexError          // a list index out of range, or `split(':')[1]` of a line without ':'
    | KeyError(key: string)
    | ValueError          // int() of a text that is not an integer literal
    | TypeError           // arithmetic on a token count that is not an int
    | FileNotFound        // open(path, 'r') of a missing file

  /** A computation that returns a value or raises; usable with `:-`. */
  datatype Result<T> = Ok(value: T) | Raised(exc: Exc) {
    predicate IsFailure() {
      Raised?
    }

    function PropagateFailure<U>(): Result<U>
      requires Raised?
    {
      Raised(exc)
    }

    function Extract(): T
      requires Ok?
    {
      value
    }
  }
}
