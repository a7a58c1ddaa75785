/**
  The module pythemoviedb/api.py: `make_request` with its 401/404 handler, the three
  calls that obtain credentials and wrap the response in a credential record, and
  the passthroughs whose parameter maps the model states properties of.
  The HTTP exchange is the parameter `send`; `parse_datetime` (a call into
  `datetime.strptime`) is the parameter `parseDatetime`.
 */
module Api {
  import opened PyData
  import opened Errors
  import opened Objects
  import opened RequestCodec

  const TokenAction := "authentication/token/new"
  const SessionAction := "authentication/session/new"
  const GuestSessionAction := "authentication/guest_session/new"

  /** `http_error_401` (also installed for 404): `APIError(**data)`, whose only keyword
      parameters are `status_code` and `status_message`, both required. */
  function ErrorFromBody(data: Json): (r: Outcome<Json>)
    ensures r.ApiErr? || r == OtherErr(MalformedErrorBody)
    ensures r.ApiErr? <==> data.JObject? && data.fields.Keys == {"status_code", "status_message"}
                           && data.fields["status_code"].JScalar? && data.fields["status_message"].JScalar?
    ensures r.ApiErr? ==> r.error.statusCode == data.fields["status_code"].v
                          && r.error.statusMessage == data.fields["status_message"].v
  {
    if data.JObject? && data.fields.Keys == {"status_code", "status_message"}
       && data.fields["status_code"].JScalar? && data.fields["status_message"].JScalar?
    then ApiErr(ApiError(data.fields["status_code"].v, data.fields["status_message"].v))
    else OtherErr(MalformedErrorBody)
  }

  /** The documented error body comes back as an `APIError` with its code and message,
      from a 401 and from a 404 alike; a body with a third key is a different failure. */
  lemma InvalidApiKeyClassified(status: int)
    requires status == 401 || status == 404
    ensures var body := JObject(map["status_code" := JScalar(Int(INVALID_API_KEY)),
                                    "status_message" := JScalar(Str("Invalid API key"))]);
      Classify(Response(status, Some(body)), ErrorFromBody) == ApiErr(ApiError(Int(7), Str("Invalid API key")))
    ensures var body := JObject(map["status_code" := JScalar(Int(INVALID_API_KEY)),
                                    "status_message" := JScalar(Str("Invalid API key")),
                                    "success" := JScalar(Bool(false))]);
      Classify(Response(status, Some(body)), ErrorFromBody) == OtherErr(MalformedErrorBody)
  {
    var m := map["status_code" := JScalar(Int(INVALID_API_KEY)), "status_message" := JScalar(Str("Invalid API key"))];
    assert m.Keys == {"status_code", "status_message"};
    var m3 := m["success" := JScalar(Bool(false))];
    assert "success" in m3.Keys;
  }

  /** `make_request`: refuse to run without an API key, build the query dict and the
      path, send the request, and return the decoded body or raise. */
  method MakeRequest(action: string, parameters: Option<map<string, Value>>, config: Config,
                     send: Request -> Response) returns (r: Outcome<Json>)
    ensures !HasApiKey(config) ==> r == OtherErr(MissingApiKey)
    ensures HasApiKey(config) ==> r == Classify(send(RequestFor(Call(action, parameters), config)), ErrorFromBody)
  {
    if config.apiKey.None? || config.apiKey.value == "" {
      return OtherErr(MissingApiKey);
    }
    var query := BuildQuery(parameters, config.apiKey.value);
    var path := config.apiVersion + "/" + action;
    assert path == RequestPath(config.apiVersion, action);
    var request := Request(config.baseUrl, path, query, JsonMediaType);
    var response := send(request);
    r := Classify(response, ErrorFromBody);
  }

  /** `response[name]` holds text. */
  predicate HasText(response: Json, name: string) {
    response.JObject? && name in response.fields && response.fields[name].JScalar? && response.fields[name].v.Str?
  }

  /** `response[name]`, read as text: raises when the response is not a dict, lacks the
      field, or holds something other than text there. */
  function TextField(response: Json, name: string): (r: Outcome<string>)
    ensures r.Ok? <==> HasText(response, name)
    ensures r.Ok? ==> r.value == response.fields[name].v.s
    ensures !response.JObject? ==> r == OtherErr(NotAnObject)
    ensures response.JObject? && name !in response.fields ==> r == OtherErr(MissingField(name))
  {
    if !response.JObject? then OtherErr(NotAnObject)
    else if name !in response.fields then OtherErr(MissingField(name))
    else match response.fields[name]
      case JScalar(Str(s)) => Ok(s)
      case _ => OtherErr(NotAString(name))
  }

  /** The identifier named `idField` and `parse_datetime(response['expires_at'])`, in the
      order the record constructors evaluate them. */
  function ReadCredential(response: Json, idField: string, parseDatetime: string -> Option<Timestamp>)
    : (r: Outcome<(string, Timestamp)>)
    ensures r.Ok? <==> HasText(response, idField) && HasText(response, "expires_at")
                       && parseDatetime(response.fields["expires_at"].v.s).Some?
    ensures r.Ok? ==> r.value.0 == response.fields[idField].v.s
                      && parseDatetime(response.fields["expires_at"].v.s) == Some(r.value.1)
    ensures !HasText(response, idField) ==> r == OtherErr(TextField(response, idField).cause)
    ensures HasText(response, idField) && !HasText(response, "expires_at") ==>
              r == OtherErr(TextField(response, "expires_at").cause)
    ensures (HasText(response, idField) && HasText(response, "expires_at")
             && parseDatetime(response.fields["expires_at"].v.s).None?) ==> r == OtherErr(MalformedDate)
  {
    TextField(response, idField).AndThen(id =>
      TextField(response, "expires_at").AndThen(expires =>
        match parseDatetime(expires)
        case Some(t) => Ok((id, t))
        case None => OtherErr(MalformedDate)))
  }

  /** The `AuthenticationToken` built from a token response. */
  function ReadToken(response: Json, parseDatetime: string -> Option<Timestamp>): (r: Outcome<AuthenticationToken>)
    ensures r.Ok? <==> ReadCredential(response, "request_token", parseDatetime).Ok?
    ensures !r.Ok? ==> r == OtherErr(ReadCredential(response, "request_token", parseDatetime).cause)
    ensures r.Ok? ==> r.value.requestToken == response.fields["request_token"].v.s
                      && parseDatetime(response.fields["expires_at"].v.s) == Some(r.value.expiresAt)
  {
    ReadCredential(response, "request_token", parseDatetime).AndThen((p: (string, Timestamp)) => Ok(AuthenticationToken(p.0, p.1)))
  }

  /** The `Session` built from a session response. */
  function ReadSession(response: Json, parseDatetime: string -> Option<Timestamp>): (r: Outcome<Session>)
    ensures r.Ok? <==> ReadCredential(response, "session_id", parseDatetime).Ok?
    ensures !r.Ok? ==> r == OtherErr(ReadCredential(response, "session_id", parseDatetime).cause)
    ensures r.Ok? ==> r.value.sessionId == response.fields["session_id"].v.s
                      && parseDatetime(response.fields["expires_at"].v.s) == Some(r.value.expiresAt)
  {
    ReadCredential(response, "session_id", parseDatetime).AndThen((p: (string, Timestamp)) => Ok(Session(p.0, p.1)))
  }

  /** The `GuestSession` built from a guest session response. */
  function ReadGuestSession(response: Json, parseDatetime: string -> Option<Timestamp>): (r: Outcome<GuestSession>)
    ensures r.Ok? <==> ReadCredential(response, "guest_session_id", parseDatetime).Ok?
    ensures !r.Ok? ==> r == OtherErr(ReadCredential(response, "guest_session_id", parseDatetime).cause)
    ensures r.Ok? ==> r.value.guestSessionId == response.fields["guest_session_id"].v.s
                      && parseDatetime(response.fields["expires_at"].v.s) == Some(r.value.expiresAt)
  {
    ReadCredential(response, "guest_session_id", parseDatetime).AndThen((p: (string, Timestamp)) => Ok(GuestSession(p.0, p.1)))
  }

  /** The call `new_session(request_token)` hands to `make_request`. */
  function SessionCall(requestToken: Value): Call {
    Call(SessionAction, Some(map["request_token" := requestToken]))
  }

  /** The token request carries the key alone; the session request carries the token's
      rendering and the key; the guest session request carries the key alone. */
  lemma CredentialRequests(requestToken: Value, config: Config)
    requires HasApiKey(config)
    ensures RequestFor(Call(TokenAction, None), config).query == map[ApiKeyParam := config.apiKey.value]
    ensures RequestFor(Call(GuestSessionAction, None), config).query == map[ApiKeyParam := config.apiKey.value]
    ensures RequestFor(SessionCall(requestToken), config).path == config.apiVersion + "/" + SessionAction
    ensures requestToken != Absent ==>
              (RequestFor(SessionCall(requestToken), config).query
               == map["request_token" := Stringify(requestToken), ApiKeyParam := config.apiKey.value])
  {
    NoParametersSendsOnlyKey(config.apiKey.value);
    var q := RequestFor(SessionCall(requestToken), config).query;
    assert q.Keys == if requestToken == Absent then {ApiKeyParam} else {"request_token", ApiKeyParam};
    var p := RequestFor(SessionCall(requestToken), config).path;
    assert p[..|config.apiVersion|] + [p[|config.apiVersion|]] + p[|config.apiVersion| + 1..] == p;
  }

  /** Passing a token record where the token text is expected sends the same request,
      because `str(token)` is its request token. */
  lemma TokenStandsForItsText(t: AuthenticationToken, config: Config)
    requires HasApiKey(config)
    ensures RequestFor(SessionCall(Str(TokenString(t))), config).query["request_token"] == t.requestToken
  {
  }

  /** `get_authentication_token`. */
  method GetAuthenticationToken(config: Config, send: Request -> Response, parseDatetime: string -> Option<Timestamp>)
    returns (r: Outcome<AuthenticationToken>)
    ensures !HasApiKey(config) ==> r == OtherErr(MissingApiKey)
    ensures HasApiKey(config) ==>
      r == Classify(send(RequestFor(Call(TokenAction, None), config)), ErrorFromBody).AndThen(body => ReadToken(body, parseDatetime))
  {
    var response := MakeRequest(TokenAction, None, config, send);
    r := response.AndThen(body => ReadToken(body, parseDatetime));
  }

  /** `new_session(request_token)`. */
  method NewSession(requestToken: Value, config: Config, send: Request -> Response, parseDatetime: string -> Option<Timestamp>)
    returns (r: Outcome<Session>)
    ensures !HasApiKey(config) ==> r == OtherErr(MissingApiKey)
    ensures HasApiKey(config) ==>
      r == Classify(send(RequestFor(SessionCall(requestToken), config)), ErrorFromBody).AndThen(body => ReadSession(body, parseDatetime))
  {
    var response := MakeRequest(SessionAction, Some(map["request_token" := requestToken]), config, send);
    r := response.AndThen(body => ReadSession(body, parseDatetime));
  }

  /** `new_guest_session`. */
  method NewGuestSession(config: Config, send: Request -> Response, parseDatetime: string -> Option<Timestamp>)
    returns (r: Outcome<GuestSession>)
    ensures !HasApiKey(config) ==> r == OtherErr(MissingApiKey)
    ensures HasApiKey(config) ==>
      r == Classify(send(RequestFor(Call(GuestSessionAction, None), config)), ErrorFromBody).AndThen(body => ReadGuestSession(body, parseDatetime))
  {
    var response := MakeRequest(GuestSessionAction, None, config, send);
    r := response.AndThen(body => ReadGuestSession(body, parseDatetime));
  }

  /** `set_movie_rating`: not implemented, so every call raises. */
  function SetMovieRating(id: Value, rating: Value): (r: Outcome<()>)
    ensures r.OtherErr? && r.cause == NotImplemented
  {
    OtherErr(NotImplemented)
  }

  /** `search_movie`, with its defaults. */
  function SearchMovie(query: Value, page: Value := Absent, language: Value := Absent,
                       includeAdult: Value := Bool(false), year: Value := Absent): Call {
    Call("search/movie", Some(map["query" := query, "page" := page, "language" := language,
                                  "include_adult" := includeAdult, "year" := year]))
  }

  /** With its defaults, `search_movie(q)` sends the query and `include_adult=false`
      and leaves out page, language and year. */
  lemma SearchMovieDefaults(query: Value, apiKey: string)
    requires query != Absent
    ensures SearchMovie(query).action == "search/movie"
    ensures EncodeQuery(SearchMovie(query).parameters, apiKey)
              == map["query" := Stringify(query), "include_adult" := "false", ApiKeyParam := apiKey]
  {
    var q := EncodeQuery(SearchMovie(query).parameters, apiKey);
    assert q.Keys == {"query", "include_adult", ApiKeyParam};
  }
}
