/**
  The module pythemoviedb/api/methods.py: a second copy of `make_request`, the
  credential calls that return the service's response as it is, and the
  passthroughs that shape their parameters: `append_to_response` lists joined by
  commas, the fixed list of `get_movie_all`, dates through `format_date`, and
  boolean flags that default to False.

  This copy of `make_request` raises `APIError` in its 401/404 handler without
  importing it, so that handler raises NameError instead. `MakeRequest` below
  models it as written, and the credential calls of this module go through it;
  `Api.MakeRequest` is the same code with the name bound.
 */
module ApiMethods {
  import opened PyData
  import opened Errors
  import opened RequestCodec
  import Api

  /** The 401/404 handler as written: once the body has been decoded, evaluating the
      unbound name `APIError` raises NameError, whatever the body holds. */
  function UnboundErrorHandler(data: Json): (r: Outcome<Json>)
    ensures r == OtherErr(UnboundApiError)
  {
    OtherErr(UnboundApiError)
  }

  /** `make_request` as written in this module: the same key check, query and path as
      `Api.MakeRequest`, but no `APIError` ever comes out of it. */
  method MakeRequest(action: string, parameters: Option<map<string, Value>>, config: Config,
                     send: Request -> Response) returns (r: Outcome<Json>)
    ensures !r.ApiErr?
    ensures !HasApiKey(config) ==> r == OtherErr(MissingApiKey)
    ensures HasApiKey(config) ==> r == Classify(send(RequestFor(Call(action, parameters), config)), UnboundErrorHandler)
  {
    if config.apiKey.None? || config.apiKey.value == "" {
      return OtherErr(MissingApiKey);
    }
    var query := BuildQuery(parameters, config.apiKey.value);
    var path := config.apiVersion + "/" + action;
    assert path == RequestPath(config.apiVersion, action);
    var request := Request(config.baseUrl, path, query, JsonMediaType);
    var response := send(request);
    r := Classify(response, UnboundErrorHandler);
  }

  /** The documented error body, sent with a 401 or a 404, raises NameError from this
      module's handler, where `Api.ErrorFromBody` raises the `APIError` it describes. */
  lemma ErrorBodyRaisesNameError(status: int)
    requires status == 401 || status == 404
    ensures var body := JObject(map["status_code" := JScalar(Int(INVALID_API_KEY)),
                                    "status_message" := JScalar(Str("Invalid API key"))]);
      && Classify(Response(status, Some(body)), UnboundErrorHandler) == OtherErr(UnboundApiError)
      && Classify(Response(status, Some(body)), Api.ErrorFromBody) == ApiErr(ApiError(Int(7), Str("Invalid API key")))
  {
    Api.InvalidApiKeyClassified(status);
  }

  /** `get_authentication_token`: the response itself, not a record. */
  method GetAuthenticationToken(config: Config, send: Request -> Response) returns (r: Outcome<Json>)
    ensures !HasApiKey(config) ==> r == OtherErr(MissingApiKey)
    ensures HasApiKey(config) ==> r == Classify(send(RequestFor(Call(Api.TokenAction, None), config)), UnboundErrorHandler)
    ensures r.Ok? ==> send(RequestFor(Call(Api.TokenAction, None), config)).body == Some(r.value)
  {
    r := MakeRequest(Api.TokenAction, None, config, send);
  }

  /** `new_session(request_token)`: the response itself, not a record. */
  method NewSession(requestToken: Value, config: Config, send: Request -> Response) returns (r: Outcome<Json>)
    ensures !HasApiKey(config) ==> r == OtherErr(MissingApiKey)
    ensures HasApiKey(config) ==> r == Classify(send(RequestFor(Api.SessionCall(requestToken), config)), UnboundErrorHandler)
    ensures r.Ok? ==> send(RequestFor(Api.SessionCall(requestToken), config)).body == Some(r.value)
  {
    r := MakeRequest(Api.SessionAction, Some(map["request_token" := requestToken]), config, send);
  }

  /** `new_guest_session`: the response itself, not a record. */
  method NewGuestSession(config: Config, send: Request -> Response) returns (r: Outcome<Json>)
    ensures !HasApiKey(config) ==> r == OtherErr(MissingApiKey)
    ensures HasApiKey(config) ==> r == Classify(send(RequestFor(Call(Api.GuestSessionAction, None), config)), UnboundErrorHandler)
    ensures r.Ok? ==> send(RequestFor(Call(Api.GuestSessionAction, None), config)).body == Some(r.value)
  {
    r := MakeRequest(Api.GuestSessionAction, None, config, send);
  }

  /** `append_to_response and ','.join(append_to_response) or None`: None, an empty
      list, and a list whose join is empty (just `''`) all become None, so the
      parameter is dropped; any other list is sent joined by commas, in order. */
  function AppendToResponse(sections: Option<seq<string>>): (v: Value)
    ensures v == Absent <==> sections.None? || sections.value == [] || sections.value == [""]
    ensures v != Absent ==> v == Str(Join(sections.value, ','))
  {
    if sections.None? || sections.value == [] then Absent
    else
      JoinIsEmptyIff(sections.value, ',');
      var joined := Join(sections.value, ',');
      if joined == "" then Absent else Str(joined)
  }

  /** The service gets the sections back by splitting on commas, as long as no
      section name holds a comma itself. */
  lemma AppendToResponseRoundTrip(sections: seq<string>)
    requires sections != [] && sections != [""]
    requires forall i :: 0 <= i < |sections| ==> ',' !in sections[i]
    ensures AppendToResponse(Some(sections)).Str?
    ensures Split(AppendToResponse(Some(sections)).s, ',') == sections
  {
    SplitJoin(sections, ',');
  }

  /** `get_movie`. */
  function GetMovie(id: Value, language: Value := Absent, appendToResponse: Option<seq<string>> := None): Call {
    Call("movie/" + PyStr(id), Some(map["language" := language, "append_to_response" := AppendToResponse(appendToResponse)]))
  }

  /** `get_movie(id)` with nothing to append sends the key alone; with a list it sends the joined list. */
  lemma GetMovieAppendParameter(id: Value, sections: Option<seq<string>>, apiKey: string)
    ensures var q := EncodeQuery(GetMovie(id, Absent, sections).parameters, apiKey);
      && ("append_to_response" in q <==> !(sections.None? || sections.value == [] || sections.value == [""]))
      && ("append_to_response" in q ==> q["append_to_response"] == Join(sections.value, ','))
    ensures EncodeQuery(GetMovie(id).parameters, apiKey) == map[ApiKeyParam := apiKey]
  {
    var q := EncodeQuery(GetMovie(id).parameters, apiKey);
    assert q.Keys == {ApiKeyParam};
  }

  /** Every section `get_movie_all` asks for, in the order it lists them. */
  const MovieAllSections: seq<string> := [
    "alternative_titles", "casts", "images", "keywords", "releases",
    "trailers", "translations", "similar_movies", "lists"
  ]

  /** No section name holds a comma, so the joined list splits back into the sections. */
  lemma MovieAllSectionsHaveNoComma()
    ensures forall i :: 0 <= i < |MovieAllSections| ==> ',' !in MovieAllSections[i]
  {
  }

  /** The `append_to_response` value of `get_movie_all`: the joined sections. */
  lemma MovieAllAppend()
    ensures AppendToResponse(Some(MovieAllSections)) == Str(Join(MovieAllSections, ','))
    ensures Split(Join(MovieAllSections, ','), ',') == MovieAllSections
  {
    MovieAllSectionsHaveNoComma();
    AppendToResponseRoundTrip(MovieAllSections);
  }

  /** `get_movie_all`. */
  function GetMovieAll(id: Value, language: Value := Absent, country: Value := Absent): Call {
    Call("movie/" + PyStr(id), Some(map["language" := language, "country" := country,
                                        "append_to_response" := AppendToResponse(Some(MovieAllSections))]))
  }

  /** The query of a call whose parameters are a language, a country and a text to
      append: the text always, the other two only when given. */
  lemma LanguageCountryAppendQuery(language: Value, country: Value, appended: string, apiKey: string)
    ensures var q := EncodeQuery(Some(map["language" := language, "country" := country,
                                          "append_to_response" := Str(appended)]), apiKey);
      && "append_to_response" in q && q["append_to_response"] == appended
      && ("language" in q <==> language != Absent)
      && ("country" in q <==> country != Absent)
    ensures EncodeQuery(Some(map["language" := Absent, "country" := Absent, "append_to_response" := Str(appended)]), apiKey)
              == map["append_to_response" := appended, ApiKeyParam := apiKey]
  {
    var q := EncodeQuery(Some(map["language" := Absent, "country" := Absent, "append_to_response" := Str(appended)]), apiKey);
    assert q.Keys == {"append_to_response", ApiKeyParam};
  }

  /** `get_movie_all` always sends the nine sections joined by commas, which split back
      into exactly that list in that order, and sends language and country only when
      they are given. */
  lemma GetMovieAllQuery(id: Value, language: Value, country: Value, apiKey: string)
    ensures var q := EncodeQuery(GetMovieAll(id, language, country).parameters, apiKey);
      && "append_to_response" in q
      && q["append_to_response"] == Join(MovieAllSections, ',')
      && Split(q["append_to_response"], ',') == MovieAllSections
      && ("language" in q <==> language != Absent)
      && ("country" in q <==> country != Absent)
    ensures EncodeQuery(GetMovieAll(id).parameters, apiKey)
              == map["append_to_response" := Join(MovieAllSections, ','), ApiKeyParam := apiKey]
  {
    MovieAllAppend();
    var joined := Join(MovieAllSections, ',');
    LanguageCountryAppendQuery(language, country, joined, apiKey);
  }

  /** `format_date`: no date gives None, so the parameter is dropped; a date is
      rendered by its own `format` method, which is the parameter `format`. */
  function FormatDate<D>(date: Option<D>, format: D -> string): (v: Value)
    ensures v == Absent <==> date.None?
    ensures date.Some? ==> v == Str(format(date.value))
  {
    if date.Some? then Str(format(date.value)) else Absent
  }

  /** `get_movie_changes`. */
  function GetMovieChanges<D>(format: D -> string, id: Value, startDate: Option<D> := None, stopDate: Option<D> := None): Call {
    Call("movie/" + PyStr(id) + "/changes",
         Some(map["start_date" := FormatDate(startDate, format), "stop_date" := FormatDate(stopDate, format)]))
  }

  /** Without dates, `get_movie_changes` sends the key alone; each date given is sent as
      its formatted text. */
  lemma GetMovieChangesDates<D>(format: D -> string, id: Value, startDate: Option<D>, stopDate: Option<D>, apiKey: string)
    ensures EncodeQuery(GetMovieChanges(format, id).parameters, apiKey) == map[ApiKeyParam := apiKey]
    ensures var q := EncodeQuery(GetMovieChanges(format, id, startDate, stopDate).parameters, apiKey);
      && ("start_date" in q <==> startDate.Some?)
      && ("stop_date" in q <==> stopDate.Some?)
      && (startDate.Some? ==> q["start_date"] == format(startDate.value))
      && (stopDate.Some? ==> q["stop_date"] == format(stopDate.value))
  {
    var q := EncodeQuery(GetMovieChanges(format, id).parameters, apiKey);
    assert q.Keys == {ApiKeyParam};
  }

  /** `get_movies_by_genre`, with its defaults. */
  function GetMoviesByGenre(id: Value, page: Value := Absent, language: Value := Absent,
                            includeAllMovies: Value := Bool(false)): Call {
    Call("genre/" + PyStr(id) + "/movies",
         Some(map["page" := page, "language" := language, "include_all_movies" := includeAllMovies]))
  }

  /** With its defaults, `get_movies_by_genre(id)` sends `include_all_movies=false` and
      leaves out page and language. */
  lemma GetMoviesByGenreDefaults(id: Value, apiKey: string)
    ensures EncodeQuery(GetMoviesByGenre(id).parameters, apiKey)
              == map["include_all_movies" := "false", ApiKeyParam := apiKey]
  {
    var q := EncodeQuery(GetMoviesByGenre(id).parameters, apiKey);
    assert q.Keys == {"include_all_movies", ApiKeyParam};
  }
}
