/** Python values and control flow that the client relies on: optional values,
    the falsy-string test `if not x`, raised exceptions and bytes. */
module Python {

  datatype Option<+T> = None | Some(value: T)

  /** A string argument that Python treats as true in `if x:` (neither None nor empty). */
  predicate Present(s: Option<string>) {
    s.Some? && s.value != ""
  }

  /** A byte of a file read in binary mode. */
  newtype byte = x: int | 0 <= x < 256

  /** The exceptions that can leave the modelled code. */
  datatype PyError =
    | ConnectionError   // the transport failed (no response)
    | JsonDecodeError   // `response.json()` on a body that is not JSON
    | TypeError         // `in` or `[key]` on a value that does not support it
    | MissingSchema     // `requests` refuses a URL that is not a string URL
    | KeyError          // a missing key in a loaded configuration
    | ValueError        // raised deliberately by the configuration code
    | FileNotFoundError // opening a configuration file that does not exist

  /** The result of a Python call: the value it returned or the exception it raised. */
  datatype Outcome<+T> = Returned(value: T) | Raised(error: PyError) {
    predicate IsFailure() {
      Raised?
    }

    function PropagateFailure<U>(): Outcome<U>
      requires Raised?
    {
      Raised(error)
    }

    function Extract(): T
      requires Returned?
    {
      value
    }
  }
}
