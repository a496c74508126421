/** Failures of the look codec and of the batch save/load, and the
    failure-compatible wrappers that carry them. */
module Results {

  /** The exceptions the Python code lets escape, one constructor per kind. */
  datatype Error =
    | KeyError(key: string)            // a serialized mapping lacks a key
    | TypeError(key: string)           // a serialized value has the wrong JSON kind
    | IndexError(index: int)           // the stored shape index is outside the table
    | MissingProperty(property: string) // PropertyList.Find found nothing: `None.Data`
    | MissingObject(name: string)      // the scene has no object with this label name

  datatype Result<+T> = Success(value: T) | Failure(error: Error) {
    predicate IsFailure() { Failure? }

    function PropagateFailure<U>(): Result<U>
      requires Failure?
    {
      Failure(error)
    }

    function Extract(): T
      requires Success?
    {
      value
    }
  }

  /** The result of an operation that returns nothing but may raise. */
  datatype Outcome = Pass | Fail(error: Error)
}

/** An optional value, as a Python argument that may be `None`. */
module Options {
  datatype Option<+T> = None | Some(value: T)
}
