/**
  How `make_request` turns a call into an HTTP request, which both copies of it
  (in pythemoviedb/api.py and pythemoviedb/api/methods.py) do the same way:
  parameter values are rendered as text (booleans as the service's `true` and
  `false`), parameters whose value is None are dropped, the configured API key is
  added last under `api_key`, and the path is the API version and the action
  joined by a slash. URL joining and query-string encoding are library code and
  stay abstract: a `Request` carries the pieces handed to them.
 */
module RequestCodec {
  import opened PyData
  import opened Errors

  const ApiKeyParam := "api_key"
  const JsonMediaType := "application/json"

  /** Where requests go and with which key; the key may be unset. */
  datatype Config = Config(baseUrl: string, apiVersion: string, apiKey: Option<string>)

  /** The configuration when nothing is set in the environment but the key. */
  function DefaultConfig(apiKey: Option<string>): Config {
    Config("http://api.themoviedb.org", "3", apiKey)
  }

  /** `not api_key` is false: a key is set and is not the empty string. */
  predicate HasApiKey(config: Config) {
    config.apiKey.Some? && config.apiKey.value != ""
  }

  /** The pieces of an HTTP GET: base URL and relative path for `urljoin`, the query
      map for `urlencode`, and the `Accept` header. */
  datatype Request = Request(baseUrl: string, path: string, query: map<string, string>, accept: string)

  /** What the transport hands back: the HTTP status and the body, decoded as JSON
      when it is valid JSON. */
  datatype Response = Response(status: int, body: Option<Json>)

  /** What a passthrough hands to `make_request`: an action and a parameter dict, or None. */
  datatype Call = Call(action: string, parameters: Option<map<string, Value>>)

  /** `stringify_value`: `True` and `False` (by identity, so not 1 or 0) become the
      service's `true` and `false`; anything else goes through `str`. */
  function Stringify(v: Value): (r: string)
    requires v != Absent
    ensures v.Bool? ==> r == (if v.b then "true" else "false")
    ensures v.Str? ==> r == v.s
    ensures v.Int? ==> ParseInt(r) == Some(v.i)
  {
    match v
    case Bool(b) => if b then "true" else "false"
    case Str(s) => s
    case Int(i) => IntToStringRoundTrip(i); IntToString(i)
  }

  /** An integer never renders as a boolean: the integers 1 and 0 are sent as "1" and "0". */
  lemma IntegersAreNotBooleans(i: int, b: bool)
    ensures Stringify(Int(i)) != Stringify(Bool(b))
    ensures Stringify(Int(1)) == "1" && Stringify(Int(0)) == "0"
  {
    assert ParseInt(Stringify(Bool(b))) == None;
  }

  /** `parameters or {}`. */
  function Items(parameters: Option<map<string, Value>>): map<string, Value> {
    if parameters.Some? then parameters.value else map[]
  }

  /** The query dict sent with a request: one entry per parameter whose value is not
      None, holding its rendering, and `api_key` holding the configured key. */
  function EncodeQuery(parameters: Option<map<string, Value>>, apiKey: string): (q: map<string, string>)
    ensures ApiKeyParam in q && q[ApiKeyParam] == apiKey
    ensures forall k :: k != ApiKeyParam ==> (k in q <==> k in Items(parameters) && Items(parameters)[k] != Absent)
    ensures forall k :: k in q && k != ApiKeyParam ==> q[k] == Stringify(Items(parameters)[k])
  {
    var items := Items(parameters);
    map k | k in items.Keys + {ApiKeyParam} && (k == ApiKeyParam || items[k] != Absent) ::
      if k == ApiKeyParam then apiKey else Stringify(items[k])
  }

  /** The comprehension followed by `query_string.update({'api_key': api_key})`. */
  method BuildQuery(parameters: Option<map<string, Value>>, apiKey: string) returns (query: map<string, string>)
    ensures query == EncodeQuery(parameters, apiKey)
  {
    var items := if parameters.Some? then parameters.value else map[];
    query := map key | key in items && items[key] != Absent :: Stringify(items[key]);
    query := query[ApiKeyParam := apiKey];
  }

  /** With no parameters (None or an empty dict) the query is the key alone. */
  lemma NoParametersSendsOnlyKey(apiKey: string)
    ensures EncodeQuery(None, apiKey) == map[ApiKeyParam := apiKey]
    ensures EncodeQuery(Some(map[]), apiKey) == map[ApiKeyParam := apiKey]
  {
    assert EncodeQuery(None, apiKey).Keys == {ApiKeyParam};
    assert EncodeQuery(Some(map[]), apiKey).Keys == {ApiKeyParam};
  }

  /** A caller's own `api_key` entry, whatever its value, changes nothing. */
  lemma CallerCannotOverrideKey(p: map<string, Value>, v: Value, apiKey: string)
    ensures EncodeQuery(Some(p[ApiKeyParam := v]), apiKey) == EncodeQuery(Some(p), apiKey)
  {
    var a, b := EncodeQuery(Some(p[ApiKeyParam := v]), apiKey), EncodeQuery(Some(p), apiKey);
    assert a.Keys == b.Keys;
  }

  /** A parameter set to None is the same as one never given; an empty string is kept. */
  lemma NoneIsOmission(p: map<string, Value>, k: string, apiKey: string)
    ensures EncodeQuery(Some(p[k := Absent]), apiKey) == EncodeQuery(Some(p - {k}), apiKey)
    ensures k != ApiKeyParam ==> EncodeQuery(Some(p[k := Str("")]), apiKey)[k] == ""
  {
    var a, b := EncodeQuery(Some(p[k := Absent]), apiKey), EncodeQuery(Some(p - {k}), apiKey);
    assert a.Keys == b.Keys;
  }

  /** `'/'.join([api_version, action])`: the version, one slash, the action. */
  function RequestPath(apiVersion: string, action: string): (path: string)
    ensures |path| == |apiVersion| + 1 + |action|
    ensures path[..|apiVersion|] == apiVersion && path[|apiVersion|] == '/' && path[|apiVersion| + 1..] == action
  {
    var parts := [apiVersion, action];
    assert parts[1..] == [action] && Join(parts[1..], '/') == action;
    assert Join(parts, '/') == apiVersion + ['/'] + action;
    Join(parts, '/')
  }

  /** The request `make_request` sends once the key check has passed. */
  function RequestFor(call: Call, config: Config): (r: Request)
    requires HasApiKey(config)
    ensures ApiKeyParam in r.query && r.query[ApiKeyParam] == config.apiKey.value
    ensures r.baseUrl == config.baseUrl && r.accept == JsonMediaType
  {
    Request(config.baseUrl, RequestPath(config.apiVersion, call.action),
            EncodeQuery(call.parameters, config.apiKey.value), JsonMediaType)
  }

  /** What the opener built with `APIHandler` makes of a response: a 2xx body is decoded
      and returned unchanged, 401 and 404 go to the handler with the decoded body, and
      any other status raises `urllib2.HTTPError`. */
  function Classify(response: Response, handler: Json -> Outcome<Json>): (r: Outcome<Json>)
    ensures 200 <= response.status < 300 ==> r == (if response.body.Some? then Ok(response.body.value) else OtherErr(UndecodableBody))
    ensures response.status in {401, 404} ==> r == (if response.body.Some? then handler(response.body.value) else OtherErr(UndecodableBody))
    ensures !(200 <= response.status < 300) && response.status !in {401, 404} ==> r == OtherErr(HttpFailure(response.status))
  {
    if 200 <= response.status < 300 then
      if response.body.Some? then Ok(response.body.value) else OtherErr(UndecodableBody)
    else if response.status == 401 || response.status == 404 then
      if response.body.Some? then handler(response.body.value) else OtherErr(UndecodableBody)
    else
      OtherErr(HttpFailure(response.status))
  }

  /** A 404 is handled exactly as a 401 with the same body. */
  lemma NotFoundIsUnauthorized(body: Option<Json>, handler: Json -> Outcome<Json>)
    ensures Classify(Response(404, body), handler) == Classify(Response(401, body), handler)
  {
  }
}
