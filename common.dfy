/** Shared wrappers: Python's `None`, and the exceptions the box code lets escape. */
module Common {

  datatype Option<+T> = None | Some(value: T)

  datatype Result<+T, +E> = Success(value: T) | Failure(error: E)

  /** The Python exceptions that `ZiggoNextBox` does not catch. */
  datatype Failure =
    | KeyError(key: string)       // a dictionary lookup of an absent key
    | IndexError                  // `images[0]` on an empty list
    | TypeError(prefix: string)   // `prefix + None`
}
