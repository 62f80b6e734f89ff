/** Failure-compatible wrappers for the synthesiser's exceptions and optional values. */
module Results {

  datatype Option<+T> = None | Some(value: T)

  /** The Python exceptions the synthesiser raises or lets escape. */
  datatype Error =
    | KeyError(key: string)           // a dict lookup of a missing key
    | TypeError(message: string)      // a value of the wrong kind (subscript, `in`, isinstance)
    | ValueError(message: string)     // a validation failure raised on purpose
    | AttributeError(message: string) // a method called on a value that lacks it
    | IndexError                      // pop() on an empty list, prefix[-1] on an empty string
    | Failure(message: string)        // a bare `raise Exception(...)`
    | NotFound(resourceId: string)    // a QuickSight describe/list call for an unknown id
    | RecursionLimit                  // the interpreter's recursion limit
    | OverflowError                   // date arithmetic past year 9999

  datatype Result<+T> = Ok(value: T) | Err(error: Error) {
    predicate IsFailure() { Err? }

    function PropagateFailure<U>(): Result<U>
      requires Err?
    {
      Err(error)
    }

    function Extract(): T
      requires Ok?
    {
      value
    }
  }
}
