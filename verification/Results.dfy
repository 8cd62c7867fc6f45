/**
 Outcomes of fallible steps. A thrown JavaScript `Error` is represented by its
 message; a function that may throw returns a `Result`.
 */
module Results {
  import opened JsText

  /** A thrown error, identified by its message. */
  datatype Error = Error(message: Str)

  /** A value that may be `undefined`. */
  datatype Option<+T> = None | Some(value: T)

  /** A value or the error thrown while computing it. */
  datatype Result<+T> = Ok(value: T) | Err(error: Error) {

    predicate IsFailure() {
      Err?
    }

    function PropagateFailure<U>(): Result<U>
      requires Err?
    {
      Err(error)
    }

    function Extract(): T
      requires Ok?
    {
      value
    }
  }

  /** JavaScript truthiness of an optional string: present and not "". */
  predicate Truthy(s: Option<Str>)
  {
    s.Some? && |s.value| > 0
  }

  /** JavaScript truthiness of a string. */
  predicate NonEmpty(s: Str)
  {
    |s| > 0
  }
}
