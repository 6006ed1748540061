/** Exceptions the bot raises, and the value-or-exception wrappers that model them. */
module Results {

  /** The Python exception classes the core raises or lets escape. */
  datatype Error =
    | ValueError       // invalid field, invalid method, unparsable number or date
    | ReferenceError   // an expected page element or status code was absent
    | TypeError        // None used where a value is needed
    | AttributeError   // an attribute looked up on None or on a non-dict
    | IndexError       // a list index past the end (str.split(...)[1], list[0])
    | KeyError         // a missing environment variable
    | PageLimit        // the page ceiling of the listing loops was reached

  datatype Option<+T> = None | Some(value: T)

  datatype Result<+T> = Ok(value: T) | Err(error: Error)
  {
    predicate IsFailure() { Err? }

    function PropagateFailure<U>(): Result<U>
      requires Err?
    {
      Err(error)
    }

    function Extract(): T
      requires Ok?
    {
      value
    }
  }
}
