/**
 * The exceptions that can reach the poll loop's `except Exception` handler,
 * each with the text `str(error)` gives it there.
 */
module Errors {
  import opened PyValues

  datatype Error =
    | TypeError(message: string)
    | AttributeError(message: string)
    | IndexError(message: string)
      /** A dict lookup with a missing key; Python carries the key, not a message. */
    | KeyError(key: Json)
      /** Defined in exceptions.py and raised by `parse_status`. */
    | WrongAPIAnswerError(message: string)
      /** Whatever the API request raised, by its text. */
    | FetchFailed(message: string)

  /**
   * `str(error)`: the message the exception was raised with; a KeyError shows
   * the repr of its key, so a string key appears in quotes.
   */
  function ErrorText(e: Error): (r: string)
    ensures !e.KeyError? ==> r == e.message
    ensures e.KeyError? ==> r == Repr(e.key)
    ensures e.KeyError? && e.key.JStr? ==> r == StrRepr(e.key.s)
    ensures e.KeyError? && e.key.JInt? ==> r == Decimal(e.key.i)
    ensures e.KeyError? && e.key.JBool? ==> r == if e.key.b then "True" else "False"
  {
    match e
    case KeyError(key) => Repr(key)
    case TypeError(m) => m
    case AttributeError(m) => m
    case IndexError(m) => m
    case WrongAPIAnswerError(m) => m
    case FetchFailed(m) => m
  }
}
