# pythemoviedb: a verified model of the client's deterministic core

pythemoviedb is a Python 2 client for The Movie Database web API. Every call
goes through `make_request`, which:

- refuses to run without an API key;
- renders the caller's parameters as a query dictionary (None dropped, `True`
  and `False` sent as `true` and `false`, anything else through `str`);
- adds the key under `api_key`;
- sends a GET to `<version>/<action>`;
- returns the decoded JSON body, or raises `APIError` when a 401 or 404 comes
  back with the service's error body.

Around it sit the `APIError` record with its `silent_error` decorator, three
credential records, the calls that obtain them, and many passthroughs that only
shape a parameter dict.

`pythemoviedb/api.py` holds its own textual copies of `APIError` and `silent_error`
(lines 14-67) and of the three credential classes (lines 69-157). They are
identical to `pythemoviedb/api/error.py` and `pythemoviedb/api/objects.py`, so
`Errors` and `Objects` model both copies.

The model has six modules:

| file | module | what it holds |
|---|---|---|
| `py_data.dfy` | `PyData` | Python scalars (None included) and decoded JSON; `str`, the decimal rendering of integers and its inverse; Python `==` against an integer; `sep.join` and `str.split` for a one-character separator |
| `error.dfy` | `Errors` | the eleven status codes; `APIError` and its message; the other exceptions as `Cause`; a call's result as `Outcome` (returned, raised `APIError`, raised anything else); `silent_error` as `Suppress`/`SilentError` |
| `objects.dfy` | `Objects` | `AuthenticationToken`, `Session`, `GuestSession` as immutable datatypes, and their `__str__` |
| `request_codec.dfy` | `RequestCodec` | `stringify_value`; the query dictionary, once as a specification function and once as a method doing what the source does (a comprehension followed by an in-place `update`); the request path; how the opener classifies a response |
| `api.dfy` | `Api` | `make_request` of `pythemoviedb/api.py` as a method; `APIError(**data)` on an error body; the three credential calls that build records; `set_movie_rating`; `search_movie` |
| `methods.dfy` | `ApiMethods` | `make_request` of `pythemoviedb/api/methods.py` as written; its credential calls, which return the response unchanged; `append_to_response` joining; `get_movie`, `get_movie_all`, `format_date` with `get_movie_changes`, and `get_movies_by_genre` |

The HTTP exchange is the function parameter `send: Request -> Response`. A
`Request` carries what `urljoin` and `urlencode` are given: base URL, relative
path, query dictionary and `Accept` header. A `Response` carries the status and
the body decoded as JSON, or no body when it does not decode. `parse_datetime`
(a call into `datetime.strptime`) is the parameter `parseDatetime`. A date's
`format` method is the parameter `format`.

## Model

| member | source | states |
|---|---|---|
| PyData.NatToString | pythemoviedb/api.py:174 | `str` of a natural number is a canonical decimal numeral: digits only, with no leading zero unless the number is 0 |
| PyData.IntToStringRoundTrip | pythemoviedb/api.py:174 | `str` on integers can be read back: parsing the rendering of any integer gives that integer, so two integers never render alike |
| PyData.ParseIntRoundTrip | pythemoviedb/api.py:174 | conversely, every string the parser accepts is exactly the rendering of the integer it reads |
| PyData.JoinIsEmptyIff | pythemoviedb/api/methods.py:138 | `','.join(xs)` is the empty string exactly when `xs` is empty or is `['']` |
| PyData.SplitJoin | pythemoviedb/api/methods.py:138 | for a non-empty list whose elements do not hold the separator, splitting the joined text on it gives back the list, element by element and in order |
| Errors.StatusCodesAreOneToEleven | pythemoviedb/api/error.py:12-22 | the eleven codes are 1 to 11 in declaration order (`SUCCESS` is 1, `INTERNAL_ERROR` is 11), so they are pairwise distinct |
| Errors.MessageCarriesCode | pythemoviedb/api/error.py:33 | the message is `str(status_message)`, then ` (error `, then `str(status_code)`, then `)`; an integer code can be read back from between the infix and the closing parenthesis |
| Errors.Suppress | pythemoviedb/api/error.py:46-56 | a returned value passes unchanged; an `APIError` whose code equals the target becomes the default value; any other `APIError` and any other exception propagate unchanged |
| Errors.SilentError | pythemoviedb/api/error.py:39-60 | the decorated function returns the default exactly where the wrapped one raises the silenced `APIError`, and behaves as the wrapped one on every other argument |
| Errors.SilentErrorNone | pythemoviedb/api/error.py:39 | with `default_return_value` left at its default, the silenced error becomes a call returning None, and every other call behaves as the wrapped one |
| Errors.SuppressIdempotent | pythemoviedb/api/error.py:50-56 | decorating twice with the same code and default is the same as decorating once |
| Errors.SuppressCommutes | pythemoviedb/api/error.py:50-56 | decorators for two different codes can be stacked in either order |
| Errors.SilencedUsesPythonEquality | pythemoviedb/api/error.py:52 | the comparison is Python's `==`: a code of JSON `true` is silenced by a decorator for 1, and the string `"6"` is not silenced by one for 6 |
| Objects.TokenString | pythemoviedb/api/objects.py:10-23 | `str(token)` is the request token |
| Objects.SessionString | pythemoviedb/api/objects.py:40-53 | `str(session)` is the session id |
| Objects.GuestSessionString | pythemoviedb/api/objects.py:70-83 | `str(guest_session)` is the guest session id |
| RequestCodec.Stringify | pythemoviedb/api.py:167-174 | `True` and `False` become `true` and `false`; a string is sent as it is; an integer is sent as its decimal rendering, which parses back to it |
| RequestCodec.IntegersAreNotBooleans | pythemoviedb/api.py:169-174 | the identity test keeps 1 and 0 apart from `True` and `False`: no integer renders as `true` or `false`, and 1 and 0 render as `1` and `0` |
| RequestCodec.EncodeQuery | pythemoviedb/api.py:176-180 | `api_key` is always present and holds the configured key; any other key is present exactly when the caller gave it a value other than None, and it holds that value's rendering |
| RequestCodec.BuildQuery | pythemoviedb/api.py:176-180 | the comprehension followed by the in-place `update` yields exactly the query dictionary `EncodeQuery` specifies |
| RequestCodec.NoParametersSendsOnlyKey | pythemoviedb/api.py:176-180 | `parameters=None` and `{}` both give exactly `{'api_key': key}` |
| RequestCodec.CallerCannotOverrideKey | pythemoviedb/api.py:178-180 | a caller's own `api_key` entry, whatever its value, leaves the query unchanged |
| RequestCodec.NoneIsOmission | pythemoviedb/api.py:176 | a parameter set to None gives the same query as one never given; an empty string is kept and sent as the empty string |
| RequestCodec.RequestPath | pythemoviedb/api.py:182 | the relative path is the version, one slash, then the action |
| RequestCodec.RequestFor | pythemoviedb/api.py:176-184 | the request goes to the configured base URL, asks for `application/json`, and carries the configured key under `api_key` |
| RequestCodec.Classify | pythemoviedb/api.py:188-208 | for the final response the opener hands back: a 2xx body is returned as decoded; a 401 or 404 body is handed to the error handler; a body that does not decode raises; any other status raises `HTTPError` with that status |
| RequestCodec.NotFoundIsUnauthorized | pythemoviedb/api.py:202 | a 404 is handled exactly as a 401 with the same body |
| Api.ErrorFromBody | pythemoviedb/api.py:193-200 | `APIError(**data)` is raised exactly when the body is an object whose keys are precisely `status_code` and `status_message`, and the error keeps both values as received; any other body raises something else |
| Api.InvalidApiKeyClassified | pythemoviedb/api.py:193-202 | a 401 or 404 with the documented invalid-key body raises `APIError(7, 'Invalid API key')`; the same body with a third key does not raise `APIError` |
| Api.MakeRequest | pythemoviedb/api.py:159-208 | without a key (None or empty) the call fails before anything is sent; otherwise it sends the request `RequestFor` describes and returns what `Classify` makes of the response, with `APIError(**data)` as the handler |
| Api.TextField | pythemoviedb/api.py:251-254 | `response[name]`, read as text: it succeeds exactly when the response is an object holding text under that name, and gives that text; a non-object and a missing key fail with their own exceptions |
| Api.ReadCredential | pythemoviedb/api.py:251-254 | the credential is read exactly when both the id field and `expires_at` hold text and the date parses; each failure, checked in the constructor's order, gives its own cause |
| Api.ReadToken | pythemoviedb/api.py:251-254 | the token's request token is `response['request_token']` and its expiry is `parse_datetime(response['expires_at'])`; it fails exactly when reading the credential fails, with the same cause |
| Api.ReadSession | pythemoviedb/api.py:268-271 | the session's id is `response['session_id']` and its expiry is `parse_datetime(response['expires_at'])`; it fails exactly when reading the credential fails, with the same cause |
| Api.ReadGuestSession | pythemoviedb/api.py:282-285 | the guest session's id is `response['guest_session_id']` and its expiry is `parse_datetime(response['expires_at'])`; it fails exactly when reading the credential fails, with the same cause |
| Api.CredentialRequests | pythemoviedb/api.py:249-280 | the token and guest-session requests carry the key alone; the session request goes to `<version>/authentication/session/new`, and when the token is not None it carries exactly the rendered request token and the key |
| Api.TokenStandsForItsText | pythemoviedb/api/objects.py:18-23 | passing `str(token)` to `new_session` sends the token's request token; this is the text case of `stringify_value`, since a parameter value here is text, not the token object itself |
| Api.GetAuthenticationToken | pythemoviedb/api.py:242-254 | without a key the call fails; otherwise it requests `authentication/token/new` and builds the token from the body, or propagates the exception the response raised |
| Api.NewSession | pythemoviedb/api.py:256-271 | without a key the call fails; otherwise it requests `authentication/session/new` with the request token and builds the session from the body, or propagates the exception the response raised |
| Api.NewGuestSession | pythemoviedb/api.py:273-285 | without a key the call fails; otherwise it requests `authentication/guest_session/new` and builds the guest session from the body, or propagates the exception the response raised |
| Api.SetMovieRating | pythemoviedb/api.py:482-490 | every call raises `NotImplementedError` |
| Api.SearchMovieDefaults | pythemoviedb/api.py:664-682 | `search_movie(q)` with the defaults requests `search/movie`, and for a query other than None sends exactly the query, `include_adult=false` and the key |
| ApiMethods.UnboundErrorHandler | pythemoviedb/api/methods.py:47-56 | the handler as written raises NameError whatever the body holds |
| ApiMethods.MakeRequest | pythemoviedb/api/methods.py:13-62 | the same key check, query and path as in `pythemoviedb/api.py`, but a 401 or 404 body never comes out as an `APIError` |
| ApiMethods.ErrorBodyRaisesNameError | pythemoviedb/api/methods.py:47-56 | the documented invalid-key body raises NameError from this handler, where the handler of `pythemoviedb/api.py` raises `APIError(7, 'Invalid API key')` |
| ApiMethods.GetAuthenticationToken | pythemoviedb/api/methods.py:96-103 | goes through this module's `make_request` (so a 401 or 404 body raises NameError), requests `authentication/token/new`, and returns the decoded body unchanged |
| ApiMethods.NewSession | pythemoviedb/api/methods.py:105-115 | goes through this module's `make_request` (so a 401 or 404 body raises NameError), requests `authentication/session/new` with exactly the request token, and returns the decoded body unchanged |
| ApiMethods.NewGuestSession | pythemoviedb/api/methods.py:117-124 | goes through this module's `make_request` (so a 401 or 404 body raises NameError), requests `authentication/guest_session/new`, and returns the decoded body unchanged |
| ApiMethods.AppendToResponse | pythemoviedb/api/methods.py:138 | the parameter is None exactly when the list is None, empty or `['']`; otherwise it is the list joined by commas |
| ApiMethods.AppendToResponseRoundTrip | pythemoviedb/api/methods.py:138 | for a list that is sent (not `[]` or `['']`) and whose section names hold no comma, the service gets the list back, in order, by splitting on commas |
| ApiMethods.GetMovieAppendParameter | pythemoviedb/api/methods.py:126-139 | `append_to_response` is sent exactly when the list is neither None, empty nor `['']`, and then holds the joined list; `get_movie(id)` sends the key alone |
| ApiMethods.MovieAllSectionsHaveNoComma | pythemoviedb/api/methods.py:151-161 | no name in the fixed list holds a comma |
| ApiMethods.MovieAllAppend | pythemoviedb/api/methods.py:151-166 | the fixed list is never dropped: it is sent joined, and splits back into exactly the nine names in order |
| ApiMethods.LanguageCountryAppendQuery | pythemoviedb/api/methods.py:163-167 | with a language, a country and a text to append, the text is always sent, while language and country are sent only when given |
| ApiMethods.GetMovieAllQuery | pythemoviedb/api/methods.py:141-167 | `get_movie_all` always sends the nine sections joined by commas, which split back into exactly the list; language and country are sent only when given; with the defaults it sends the sections and the key alone |
| ApiMethods.FormatDate | pythemoviedb/api/methods.py:76-85 | no date gives None, so the parameter is dropped; a date is sent as its own formatting |
| ApiMethods.GetMovieChangesDates | pythemoviedb/api/methods.py:294-307 | without dates only the key is sent; each date given is sent as its formatted text, and each date left out is not sent |
| ApiMethods.GetMoviesByGenreDefaults | pythemoviedb/api/methods.py:514-529 | `get_movies_by_genre(id)` sends exactly `include_all_movies=false` and the key, leaving out page and language |

## Left out

- The HTTP exchange (`urllib2.Request`, `build_opener`, `open`, `read`) is network I/O. It is the parameter `send`. The model keeps what the opener does with the status of the final response, and what the handler does with the body.
- Redirects: the opener also installs urllib2's redirect handler, which follows 301, 302, 303 and 307. `send` stands for the exchange after those redirects have been followed, and returns the final response.
- Connection errors: `send` always returns a response, so a failure to connect (`URLError` from `open`) is not modelled.
- `urlparse.urljoin` and `urllib.urlencode` are library code. A `Request` carries their inputs instead of the final URL.
- `json.loads` is library code. A body that does not decode is a `Response` without a body, and floating-point JSON numbers are not modelled.
- `parse_datetime` is a foreign call into `datetime.strptime` with a locale-dependent `%Z`. It is the parameter `parseDatetime`.
- The non-None branch of `format_date` calls the date's own `format` method. It is the parameter `format`.
- ApiMethods.FormatDate: a date object that is present but falsy in Python 2 (a midnight `datetime.time`) would also be dropped. The model sends every present date.
- `__repr__` (reflection over `__dict__`), `LOGGER.debug`, `pythemoviedb/configuration.py` (environment variables), `pythemoviedb/main.py` (command line) and `setup.py` (packaging) are not part of this model. The base URL, version and key are the fields of `Config`.
- The remaining passthroughs differ from the modelled ones only in their action and parameter names. Examples are `get_configuration`, `get_movie_casts` and `search_person`. Each one is a `Call` handed to `MakeRequest`, and `EncodeQuery` states what it sends. They are not written out one by one.
- `get_movie` of `pythemoviedb/api.py` takes no `append_to_response`. Only the `pythemoviedb/api/methods.py` version, which does, is modelled.
- Api.ErrorFromBody: an error body whose code or message is a JSON array or object would still raise `APIError` in Python. The model treats such a body as raising something else, because `ApiError` holds scalar values only.
- Api.TextField: on a dict, Python's `response[name]` gives whatever JSON value is stored under the name. The model reads text only, and fails with `NotAString` on any other value.
- Api.ReadCredential: Python stores any JSON value as the identifier. The model requires text there and fails with `NotAString` otherwise.
- Api.ReadToken: a `request_token` that is not text fails with `NotAString`, where Python stores it in the token.
- Api.ReadSession: a `session_id` that is not text fails with `NotAString`, where Python stores it in the session.
- Api.ReadGuestSession: a `guest_session_id` that is not text fails with `NotAString`, where Python stores it in the guest session.
- Parameter values are None, text, integers and booleans. Floats, lists and other objects a caller could pass to `str` are not modelled.
- `APIError` derives no kind from its code. It keeps the raw code and message, and the eleven constants are `StatusCodes`.
- Python 2 byte and unicode strings are both `string`. Encoding is not modelled.

## Findings

| source | as written | input that shows it | evidently intended | confidence | as-written member | corrected member |
|---|---|---|---|---|---|---|
| pythemoviedb/api/methods.py:54 | the 401/404 handler raises `APIError(**data)`, but the module's imports (lines 5-11) never bind `APIError`, so the handler raises NameError | a 401 response with body `{"status_code": 7, "status_message": "Invalid API key"}` | raise `APIError(7, 'Invalid API key')`, as `pythemoviedb/api.py` does | not executed | ApiMethods.ErrorBodyRaisesNameError | Api.InvalidApiKeyClassified |

The credential calls of `pythemoviedb/api/methods.py` go through the as-written
`ApiMethods.MakeRequest`, as the source does. Those of `pythemoviedb/api.py` go
through `Api.MakeRequest`, whose handler raises `APIError` as intended.
