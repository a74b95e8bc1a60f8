/** Optional values, the exceptions the occurrence model can raise, and a
    failure-compatible Result that propagates them with `:-`. */
module Wrappers {

  /** A nullable field or argument: Python's `None` is `None`. */
  datatype Option<+T> = None | Some(value: T)

  /** The Python exceptions raised by the occurrence code. */
  datatype Exception =
    | TypeError       // datetime.combine on a missing date or time; ordering a time against None
    | ValueError      // list.index found no equal element
    | AttributeError  // setting a variation on an event class that has none

  /** The outcome of a Python expression: a value, or the exception it raises. */
  datatype Result<+T> = Ok(value: T) | Err(error: Exception) {
    predicate IsFailure() {
      Err?
    }

    function PropagateFailure<U>(): Result<U>
      requires Err?
    {
      Err(error)
    }

    function Extract(): T
      requires Ok?
    {
      value
    }
  }

  /** The outcome of a Python statement that returns nothing. */
  datatype Outcome = Pass | Fail(error: Exception)
}
