/**
 * Values shared by every part of the recipe model: an optional value (Python's
 * `None` or a value), the Python exception kinds the recipe can raise, and a
 * result that is either a value or such an exception.
 */
module Common {

  datatype Option<+T> = None | Some(value: T)

  /** The exception kinds that abort the recipe. */
  datatype Error =
    | KeyError(key: string)   // a dictionary lookup or a format field name that is missing
    | ValueError              // a malformed format string
    | TypeError               // `None + str`
    | AttributeError          // `None.groups()`, i.e. a regular-expression search that found nothing

  datatype Result<+T> = Success(value: T) | Failure(error: Error)

  /** Concatenation is associative. */
  lemma Assoc<T>(a: seq<T>, b: seq<T>, c: seq<T>)
    ensures a + b + c == a + (b + c)
  {
  }

  /** Python's `str(x)` of a value that may be `None`. */
  function PyStr(x: Option<string>): string
  {
    match x
    case None => "None"
    case Some(s) => s
  }
}
