/** Outcomes of the label constructors: a value, or the Python exception the
    source would raise instead. */
module Results {

  /** The exceptions the modelled code can raise. */
  datatype Error =
    | ZeroDivisionError
    | ValueError
    | IndexError
    | KeyError(key: string)
    | NotImplementedError
    | AxisError           // NumPy's reduction over an axis the array lacks
    | AssertionError

  datatype Result<+T> = Ok(value: T) | Err(error: Error) {
    predicate IsFailure() {
      Err?
    }

    function PropagateFailure<U>(): Result<U>
      requires Err?
    {
      Err(error)
    }

    function Extract(): T
      requires Ok?
    {
      value
    }
  }

  datatype Option<+T> = None | Some(value: T)
}
