/** The Python values the analysers hand back, their truthiness, and the
    exceptions an analysis can raise. */
module PyValues {
  import opened Text

  /** The unit of a power-on time rendered with one decimal place
      (`'{:.1f} days'` / `'{:.1f} years'`). */
  datatype DurationUnit = Days | Years

  /** A Python result value: `None`, `False`, an `int`, a `str`, or a
      one-decimal duration text computed from a whole number of hours. */
  datatype PyValue =
    | PyNone
    | PyFalse
    | PyInt(i: int)
    | PyStr(s: string)
    | PyDuration(unit: DurationUnit, hours: int)

  /** Python truthiness: `None`, `False`, `0` and `''` are falsy; a formatted
      duration is a non-empty text. */
  predicate Truthy(v: PyValue) {
    match v
    case PyNone => false
    case PyFalse => false
    case PyInt(i) => i != 0
    case PyStr(s) => s != ""
    case PyDuration(_, _) => true
  }

  /** An exception that leaves an analysis. */
  datatype PyError =
    | ValueError    // int() of a text that is not a decimal number
    | TypeError     // comparing a str with an int
    | IndexError    // indexing past the end of a list
    | AttributeError  // an unknown analysis mode

  /** The outcome of a Python call: a value, or the exception it raised. */
  datatype Outcome<T> = Ok(value: T) | Raises(error: PyError) {
    predicate IsFailure() { Raises? }

    function PropagateFailure<U>(): Outcome<U>
      requires Raises?
    {
      Raises(error)
    }

    function Extract(): T
      requires Ok?
    {
      value
    }
  }

  /** Python's `int(s)`, raising ValueError on a text that is not a number. */
  function Int(s: string): Outcome<int> {
    match ParseInt(s)
    case Some(n) => Ok(n)
    case None => Raises(ValueError)
  }
}
