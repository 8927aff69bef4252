/** Values shared by every part of the model: optional values, results of
    calls that can fail, the JSON-like scalars stored in free-form metadata,
    and the HTTP error an endpoint raises. */
module Common {

  datatype Option<+T> = None | Some(value: T)

  /** The outcome of a call that may raise: `Err` carries the exception text. */
  datatype Result<+T, +E> = Ok(value: T) | Err(error: E)

  /** A scalar stored in a free-form metadata dictionary. */
  datatype Value = Str(s: string) | Num(n: real) | Flag(b: bool)

  type Metadata = map<string, Value>

  /** An HTTP error raised by an endpoint or an authentication dependency. */
  datatype HttpError = HttpError(status: int, detail: string)

  /** Python's `d or {}` for an optional dictionary. */
  function OrEmpty(m: Option<Metadata>): Metadata
  {
    if m.Some? then m.value else map[]
  }
}
