/** Values shared by every part of the SELECT builder model: bound values,
    parameter maps, result rows, errors and statuses. */
module Values {

  datatype Option<T> = None | Some(value: T)

  /** A value bound to a named parameter or held in a result column. */
  datatype Value = Int(i: int) | Str(s: string) | Null

  /** Named parameters; insertion order plays no part, as with a Go map. */
  type Params = map<string, Value>

  /** A result row, by column name. */
  type Row = map<string, Value>

  /** The error values the builder and its execution paths return. */
  datatype Error =
    | VarTypeError(message: string)
    | MissingPKError
    | CompositePKError
    | ErrNoRows
    | HookError(message: string)

  /** The `error` result of Go: nil, or an error value. */
  datatype Status = Ok | Err(error: Error)

  datatype Result<T> = Success(value: T) | Failure(error: Error)

  function StatusOf<T>(r: Result<T>): (s: Status)
    ensures s.Ok? <==> r.Success?
    ensures r.Failure? ==> s.error == r.error
  {
    match r
    case Success(_) => Ok
    case Failure(e) => Err(e)
  }
}
