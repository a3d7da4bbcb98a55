/** The failure values the containers raise, and the result types that carry them.
    Python raises exceptions; the model returns them as values instead. */
module Results {

  datatype Option<T> = None | Some(value: T)

  /** The exceptions the modelled operations can raise. The kinds raised by the
      backing Python list or dict carry no message; the two exceptions that the
      containers raise themselves carry the message they are built with. */
  datatype Error =
    | NotAnInteger                   // TypeError: the backing list got an index that is not an integer
    | OutOfRange                     // IndexError: the backing list got an integer index outside its bounds
    | NotInList                      // ValueError: list.index did not find the value
    | KeyMissing                     // KeyError: the backing dict has no such key
    | AssignmentRefused(msg: string) // TypeError raised by SemiMutableSequence.__setitem__
    | TooFewEntries(msg: string)     // ValueError raised by SomethingElse.__getitem__

  /** The outcome of an operation that returns a value or raises. */
  datatype Result<T> = Ok(value: T) | Err(error: Error)

  /** The outcome of an operation that returns None or raises. */
  datatype Outcome = Done | Raised(error: Error)
}
