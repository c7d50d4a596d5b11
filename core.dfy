/**
 * Shared value types: an optional value, a result that carries either a value
 * or one of the Python exceptions the pipeline raises, and the scalar
 * values that a DataFrame cell or a parsed length can hold.
 */
module Core {

  datatype Option<+T> = None | Some(value: T)

  /** The exceptions raised by the pipeline, with the argument they are raised with. */
  datatype Error =
    | ValueError(message: string)
    | KeyError(message: string)
    | AttributeError(message: string)

  datatype Result<+T> = Success(value: T) | Failure(error: Error)

  /**
   * A non-null Python scalar as it appears in a record or a DataFrame cell:
   * a string or an integer.  Python `None` / pandas `NaN` is `Option.None`.
   */
  datatype Scalar = Str(s: string) | Int(i: int)

  type Cell = Option<Scalar>
}
