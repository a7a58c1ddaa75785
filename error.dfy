/**
  The service's structured error (`APIError`), the other ways a call can fail,
  and the `silent_error` wrapper that turns one status code into a default value.
  A Python call that returns or raises is modelled as an `Outcome`.
 */
module Errors {
  import opened PyData

  // The status codes the service documents for its error bodies.
  const SUCCESS := 1
  const INVALID_SERVICE := 2
  const AUTHENTICATION_FAILED := 3
  const INVALID_FORMAT := 4
  const INVALID_PARAMETERS := 5
  const INVALID_ID := 6
  const INVALID_API_KEY := 7
  const DUPLICATE_ENTRY := 8
  const SERVICE_OFFLINE := 9
  const SUSPENDED_API_KEY := 10
  const INTERNAL_ERROR := 11

  const StatusCodes: seq<int> := [
    SUCCESS, INVALID_SERVICE, AUTHENTICATION_FAILED, INVALID_FORMAT, INVALID_PARAMETERS, INVALID_ID,
    INVALID_API_KEY, DUPLICATE_ENTRY, SERVICE_OFFLINE, SUSPENDED_API_KEY, INTERNAL_ERROR
  ]

  /** The eleven codes are the integers 1 to 11, in declaration order, so no two coincide. */
  lemma StatusCodesAreOneToEleven()
    ensures |StatusCodes| == 11
    ensures forall i :: 0 <= i < |StatusCodes| ==> StatusCodes[i] == i + 1
    ensures forall i, j :: 0 <= i < j < |StatusCodes| ==> StatusCodes[i] != StatusCodes[j]
  {
  }

  /** An `APIError`: the two fields of the service's error body, kept as received. */
  datatype ApiError = ApiError(statusCode: Value, statusMessage: Value)

  const ErrorInfix := " (error "

  /** The exception's text, `'%s (error %s)' % (status_message, status_code)`. */
  function Message(e: ApiError): string {
    PyStr(e.statusMessage) + ErrorInfix + PyStr(e.statusCode) + ")"
  }

  /** The message starts with the status message and ends with the status code in
      parentheses; an integer code can be read back from it. */
  lemma MessageCarriesCode(e: ApiError)
    ensures var m, n := Message(e), |PyStr(e.statusMessage)|;
      && |m| == n + |ErrorInfix| + |PyStr(e.statusCode)| + 1
      && m[..n] == PyStr(e.statusMessage)
      && m[n..n + |ErrorInfix|] == ErrorInfix
      && m[|m| - 1] == ')'
      && (e.statusCode.Int? ==> ParseInt(m[n + |ErrorInfix|..|m| - 1]) == Some(e.statusCode.i))
  {
    var m, n := Message(e), |PyStr(e.statusMessage)|;
    assert m[n + |ErrorInfix|..|m| - 1] == PyStr(e.statusCode);
    if e.statusCode.Int? {
      IntToStringRoundTrip(e.statusCode.i);
    }
  }

  /** The failures other than `APIError`, named after the Python exception each stands for. */
  datatype Cause =
    | MissingApiKey              // RuntimeError: no API key configured
    | HttpFailure(status: int)   // urllib2.HTTPError for a status the client does not handle
    | UndecodableBody            // ValueError from json.loads
    | MalformedErrorBody         // TypeError from APIError(**data)
    | UnboundApiError            // NameError: APIError used where it is not imported
    | NotAnObject                // TypeError: a field looked up in a response that is not a dict
    | MissingField(name: string) // KeyError: a field the response lacks
    | NotAString(name: string)   // a field whose value is not text
    | MalformedDate              // ValueError from datetime.strptime
    | NotImplemented             // NotImplementedError

  /** What a call does: returns a value, raises `APIError`, or raises anything else. */
  datatype Outcome<T> = Ok(value: T) | ApiErr(error: ApiError) | OtherErr(cause: Cause)
  {
    /** Runs `f` on the value of a call that returned; any exception propagates as it is. */
    function AndThen<U>(f: T -> Outcome<U>): Outcome<U> {
      match this
      case Ok(v) => f(v)
      case ApiErr(e) => ApiErr(e)
      case OtherErr(c) => OtherErr(c)
    }
  }

  /** Whether `silent_error(statusCode, ...)` catches this outcome: an `APIError` whose
      code is Python-equal to the target. */
  predicate Silenced<T>(statusCode: int, r: Outcome<T>) {
    r.ApiErr? && EqualsInt(r.error.statusCode, statusCode)
  }

  /** What `silent_error(statusCode, default)` makes of the outcome of the call it wraps. */
  function Suppress<T>(statusCode: int, default: T, r: Outcome<T>): (s: Outcome<T>)
    ensures r.Ok? ==> s == r
    ensures Silenced(statusCode, r) ==> s == Ok(default)
    ensures r.ApiErr? && !EqualsInt(r.error.statusCode, statusCode) ==> s == r
    ensures r.OtherErr? ==> s == r
  {
    if Silenced(statusCode, r) then Ok(default) else r
  }

  /** `silent_error(statusCode, default)(f)`: the wrapped call behaves as `f` does,
      except that the one silenced error becomes the default value. */
  function SilentError<A(!new), T>(statusCode: int, default: T, f: A -> Outcome<T>): (g: A -> Outcome<T>)
    ensures forall x :: Silenced(statusCode, f(x)) ==> g(x) == Ok(default)
    ensures forall x :: !Silenced(statusCode, f(x)) ==> g(x) == f(x)
  {
    x => Suppress(statusCode, default, f(x))
  }

  /** `silent_error(statusCode)` with `default_return_value` left at None: the silenced
      error becomes a call that returns None. */
  function SilentErrorNone<A(!new)>(statusCode: int, f: A -> Outcome<Json>): (g: A -> Outcome<Json>)
    ensures forall x :: Silenced(statusCode, f(x)) ==> g(x) == Ok(JNull)
    ensures forall x :: !Silenced(statusCode, f(x)) ==> g(x) == f(x)
  {
    SilentError(statusCode, JNull, f)
  }

  /** Suppressing twice is suppressing once. */
  lemma SuppressIdempotent<T>(statusCode: int, default: T, r: Outcome<T>)
    ensures Suppress(statusCode, default, Suppress(statusCode, default, r)) == Suppress(statusCode, default, r)
  {
  }

  /** Two wrappers for different codes can be stacked in either order. */
  lemma SuppressCommutes<T>(c1: int, d1: T, c2: int, d2: T, r: Outcome<T>)
    requires c1 != c2
    ensures Suppress(c1, d1, Suppress(c2, d2, r)) == Suppress(c2, d2, Suppress(c1, d1, r))
  {
  }

  /** Since Python's True == 1, an error body whose code is JSON `true` is silenced by a
      wrapper for code 1, while the string "6" is not silenced by one for code 6. */
  lemma SilencedUsesPythonEquality<T>()
    ensures Silenced<T>(SUCCESS, ApiErr(ApiError(Bool(true), Str("x"))))
    ensures !Silenced<T>(INVALID_ID, ApiErr(ApiError(Str("6"), Str("x"))))
  {
  }
}
