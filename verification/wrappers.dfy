/** A value that may be absent: what a JSON reader found, if the text had
    the expected shape; the file `main` wrote, if any; the colour of a
    summary line, if one is printed. */
module Wrappers {

  datatype Option<+T> = None | Some(value: T) {

    /** Absence stops a chain of `:-` steps, as a failed read stops the
        readers that follow it. */
    predicate IsFailure() {
      None?
    }

    /** The absence a stopped chain hands on, at the caller's type. */
    function PropagateFailure<U>(): Option<U>
      requires None?
    {
      None
    }

    /** The value that is present. */
    function Extract(): T
      requires Some?
    {
      value
    }
  }
}
