/** Shared vocabulary of the model: bytes, optional values, results and the
    Python exceptions that the modelled code can raise. */
module Common {

  /** One octet, as `struct` packs it with the `B` format. */
  newtype byte = x: int | 0 <= x < 256

  /** Python's `None` or a present value. */
  datatype Option<+T> = None | Some(value: T) {
    predicate IsFailure() { None? }

    function PropagateFailure<U>(): Option<U>
      requires None?
    {
      None
    }

    function Extract(): T
      requires Some?
    {
      value
    }
  }

  /** A value, or the exception that Python code raised instead. */
  datatype Result<+T, +E> = Ok(value: T) | Err(error: E) {
    predicate IsFailure() { Err? }

    function PropagateFailure<U>(): Result<U, E>
      requires Err?
    {
      Err(error)
    }

    function Extract(): T
      requires Ok?
    {
      value
    }
  }

  /** The exception classes raised by the modelled code. */
  datatype PyError =
    | TypeError(message: string)
    | ValueError(message: string)
    | KeyError(key: string)
    | AttributeError(message: string)
    | OSError(message: string)
    | NotImplementedError(message: string)

  /** `str(e)`: a KeyError prints its key in quotes, the others their message. */
  function Str(e: PyError): string {
    match e
    case KeyError(k) => "'" + k + "'"
    case TypeError(m) => m
    case ValueError(m) => m
    case AttributeError(m) => m
    case OSError(m) => m
    case NotImplementedError(m) => m
  }

  /** A scalar value read from the JSON configuration; `JNull` is also what
      `dict.get` yields for a missing key. */
  datatype Json = JNull | JBool(b: bool) | JInt(i: int) | JReal(r: real) | JString(s: string)

  /** Python's `v == n` between a configuration value and an `int`: numbers
      compare by value, `True`/`False` count as 1/0, everything else differs. */
  predicate EqualsInt(v: Json, n: int) {
    match v
    case JInt(i) => i == n
    case JReal(r) => r == n as real
    case JBool(b) => (if b then 1 else 0) == n
    case _ => false
  }

  /** What `obj[key]` raises when `obj` is `None`. */
  const NoneNotSubscriptable := TypeError("'NoneType' object is not subscriptable")
}
