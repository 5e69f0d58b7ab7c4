/** The places-API client: resolving the API key, the request headers, the
    validation and query parameters of the two endpoints, and the
    classification of an HTTP response into a JSON payload or an error. The
    HTTP transport itself is a parameter (`send`), so a call is a pure
    function of its arguments and of what the transport answers. */
module Client {
  import opened Results
  import opened Json
  import Normalize

  const DefaultVersion: string := "2025-06-17"
  const DefaultBaseUrl: string := "https://places-api.foursquare.com"
  const DefaultLimit: int := 10
  const MaxLimit: int := 50
  /** How much of an unparseable body an invalid-JSON error keeps. */
  const BodyExcerptLength: nat := 500

  const QueryMessage: string := "`query` must be a non-empty string."
  const NearMessage: string := "`near` must be a non-empty string, e.g. 'Atlanta, GA'."
  const LimitMessage: string := "`limit` must be between 1 and 50."
  const RadiusMessage: string := "`radius` must be a positive integer (meters)."
  const PlaceIdMessage: string := "`fsq_place_id` must be a non-empty string."

  /** Everything a client call can raise. `MissingApiKey` and `AuthRejected`
      are the source's authentication error, `ApiError` and `InvalidJson` its
      request error, and `ValueError` the argument check. */
  datatype ClientError =
    | ValueError(message: string)
    | MissingApiKey
    | AuthRejected(status: int, body: string)
    | ApiError(status: int, body: string)
    | InvalidJson(bodyExcerpt: string)
  {
    predicate IsAuthError() {
      MissingApiKey? || AuthRejected?
    }

    predicate IsRequestError() {
      ApiError? || InvalidJson?
    }
  }

  /** A configured client: the key is never empty. */
  datatype RestaurantClient = RestaurantClient(apiKey: string, version: string, baseUrl: string)

  /** A query-parameter value: the source sends strings and integers. */
  datatype Param = PStr(s: string) | PInt(i: int)

  /** An HTTP GET as handed to the transport. */
  datatype Request = Request(url: string, headers: map<string, string>, params: map<string, Param>)

  /** What the transport answers: the status code, the body text, and the
      body decoded as JSON, or None when the text does not parse. */
  datatype Response = Response(status: int, text: string, body: Option<Json>)

  /** The arguments of a place search; `limit` defaults to 10. */
  datatype SearchArgs = SearchArgs(
    query: string,
    near: string,
    limit: int,
    radius: Option<int>,
    categories: Option<string>)

  // ---------------------------------------------------------------------
  // Construction and headers
  // ---------------------------------------------------------------------

  /** Builds a client. Only a missing key (None) is looked up in the
      environment, whose value is passed in; an explicit empty key is not
      replaced. A key that is still missing or empty is an authentication
      error. */
  function NewClient(apiKey: Option<string>, envKey: Option<string>, version: string, baseUrl: string)
    : (r: Result<RestaurantClient, ClientError>)
    ensures apiKey.Some? && apiKey.value != "" ==> r == Ok(RestaurantClient(apiKey.value, version, baseUrl))
    ensures apiKey == Some("") ==> r == Err(MissingApiKey)
    ensures apiKey.None? && envKey.Some? && envKey.value != "" ==>
              r == Ok(RestaurantClient(envKey.value, version, baseUrl))
    ensures apiKey.None? && (envKey.None? || envKey == Some("")) ==> r == Err(MissingApiKey)
    ensures r.Ok? ==> r.value.apiKey != "" && r.value.version == version && r.value.baseUrl == baseUrl
    ensures r.Err? ==> r.error == MissingApiKey
  {
    var key := if apiKey.None? then envKey else apiKey;
    if key.None? || key.value == "" then Err(MissingApiKey)
    else Ok(RestaurantClient(key.value, version, baseUrl))
  }

  /** `RestaurantClient()`: the default version and base URL, and the key
      taken from the environment. */
  function DefaultClient(envKey: Option<string>): (r: Result<RestaurantClient, ClientError>)
    ensures envKey.Some? && envKey.value != "" ==>
              r == Ok(RestaurantClient(envKey.value, "2025-06-17", "https://places-api.foursquare.com"))
    ensures envKey.None? || envKey == Some("") ==> r == Err(MissingApiKey)
  {
    NewClient(None, envKey, DefaultVersion, DefaultBaseUrl)
  }

  /** An explicit key decides alone, whatever the environment holds; with no
      key, the environment value acts exactly as if it had been given. */
  lemma KeyResolutionPrecedence(key: string, e1: Option<string>, e2: Option<string>, version: string, baseUrl: string)
    ensures NewClient(Some(key), e1, version, baseUrl) == NewClient(Some(key), e2, version, baseUrl)
    ensures NewClient(None, e1, version, baseUrl) == NewClient(e1, None, version, baseUrl)
  {
  }

  const BearerPrefix: string := "Bearer "

  /** The headers sent with every request. */
  function Headers(c: RestaurantClient): (h: map<string, string>)
    ensures h.Keys == {"Accept", "Authorization", "X-Places-Api-Version"}
    ensures h["Accept"] == "application/json"
    ensures h["X-Places-Api-Version"] == c.version
    ensures BearerPrefix <= h["Authorization"]
  {
    map[
      "Accept" := "application/json",
      "Authorization" := BearerPrefix + c.apiKey,
      "X-Places-Api-Version" := c.version]
  }

  /** The credential a server reads out of an `Authorization` header. */
  function BearerToken(authorization: string): Option<string> {
    if BearerPrefix <= authorization then Some(authorization[|BearerPrefix|..]) else None
  }

  /** The `Authorization` header carries the client's key and nothing else:
      a server reading the bearer token gets the key back. */
  lemma HeadersCarryKey(c: RestaurantClient)
    ensures BearerToken(Headers(c)["Authorization"]) == Some(c.apiKey)
  {
  }

  // ---------------------------------------------------------------------
  // Response classification
  // ---------------------------------------------------------------------

  /** `text[:n]`. */
  function Excerpt(text: string, n: nat): (e: string)
    ensures e <= text
    ensures |e| == (if |text| <= n then |text| else n)
  {
    if |text| <= n then text else text[..n]
  }

  /** The outcome of a request: 401 and 403 are authentication errors, any
      other status from 400 up is a request error, and below 400 the body
      must parse as JSON, else it is a request error quoting the start of
      the body. */
  function Classify(resp: Response): (r: Result<Json, ClientError>)
    ensures r.Ok? <==> resp.status < 400 && resp.body.Some?
    ensures r.Ok? ==> r.value == resp.body.value
    ensures resp.status == 401 || resp.status == 403 ==> r == Err(AuthRejected(resp.status, resp.text))
    ensures r.Err? ==> (r.error.IsAuthError() <==> resp.status == 401 || resp.status == 403)
    ensures r.Err? ==> (r.error.IsRequestError() <==> resp.status != 401 && resp.status != 403)
    ensures r.Err? && r.error.AuthRejected? ==> r.error == AuthRejected(resp.status, resp.text)
    ensures r.Err? && r.error.ApiError? ==> r.error == ApiError(resp.status, resp.text) && resp.status >= 400
    ensures r.Err? && r.error.InvalidJson? ==>
              resp.status < 400 && resp.body.None?
              && r.error.bodyExcerpt == Excerpt(resp.text, BodyExcerptLength)
    ensures resp.status < 400 && resp.body.None? ==> r.Err? && r.error.InvalidJson?
  {
    if resp.status == 401 || resp.status == 403 then Err(AuthRejected(resp.status, resp.text))
    else if resp.status >= 400 then Err(ApiError(resp.status, resp.text))
    else match resp.body
      case None => Err(InvalidJson(Excerpt(resp.text, BodyExcerptLength)))
      case Some(v) => Ok(v)
  }

  /** The status code decides before the body: a rejected or failed request
      is reported as such even when its body is valid JSON, and the outcome
      of a status below 400 depends on the body alone. */
  lemma StatusDecidesBeforeBody(status: int, text: string, b1: Option<Json>, b2: Option<Json>)
    ensures status >= 400 ==> Classify(Response(status, text, b1)) == Classify(Response(status, text, b2))
    ensures status < 400 && b1.Some? ==> Classify(Response(status, text, b1)) == Ok(b1.value)
  {
  }

  // ---------------------------------------------------------------------
  // Search
  // ---------------------------------------------------------------------

  /** The argument checks of a search, in the order the source makes them;
      None when all pass. */
  function SearchArgsError(args: SearchArgs): (e: Option<string>)
    ensures e.None? <==>
              args.query != "" && args.near != "" && 1 <= args.limit <= MaxLimit
              && (args.radius.Some? ==> args.radius.value > 0)
  {
    if args.query == "" then Some(QueryMessage)
    else if args.near == "" then Some(NearMessage)
    else if args.limit <= 0 || args.limit > MaxLimit then Some(LimitMessage)
    else if args.radius.Some? && args.radius.value <= 0 then Some(RadiusMessage)
    else None
  }

  /** The query parameters of a search: query, near and limit always,
      radius and categories when given. */
  function SearchParams(args: SearchArgs): (p: map<string, Param>)
    ensures p.Keys == {"query", "near", "limit"}
                      + (if args.radius.Some? then {"radius"} else {})
                      + (if args.categories.Some? then {"categories"} else {})
  {
    var base := map["query" := PStr(args.query), "near" := PStr(args.near), "limit" := PInt(args.limit)];
    var withRadius := if args.radius.Some? then base["radius" := PInt(args.radius.value)] else base;
    if args.categories.Some? then withRadius["categories" := PStr(args.categories.value)] else withRadius
  }

  /** The search request, or the `ValueError` of the first failing check. */
  function BuildSearch(c: RestaurantClient, args: SearchArgs): (r: Result<Request, ClientError>)
    ensures r.Err? <==>
              args.query == "" || args.near == "" || args.limit <= 0 || args.limit > MaxLimit
              || (args.radius.Some? && args.radius.value <= 0)
    ensures args.query == "" ==> r == Err(ValueError(QueryMessage))
    ensures args.query != "" && args.near == "" ==> r == Err(ValueError(NearMessage))
    ensures r.Err? ==> r.error.ValueError?
    ensures r.Ok? ==> r.value.url == c.baseUrl + "/places/search" && r.value.headers == Headers(c)
    ensures r.Ok? ==> DecodeSearchParams(r.value.params) == Some(args)
  {
    match SearchArgsError(args)
    case Some(message) => Err(ValueError(message))
    case None =>
      Ok(Request(c.baseUrl + "/places/search", Headers(c), SearchParams(args)))
  }

  /** Reads the search arguments back out of a parameter map, as the server
      would; None when a parameter is missing, has the wrong type, or is not
      one of the five. */
  function DecodeSearchParams(p: map<string, Param>): Option<SearchArgs> {
    if !(p.Keys <= {"query", "near", "limit", "radius", "categories"}) then None
    else if !("query" in p && p["query"].PStr?) then None
    else if !("near" in p && p["near"].PStr?) then None
    else if !("limit" in p && p["limit"].PInt?) then None
    else if "radius" in p && !p["radius"].PInt? then None
    else if "categories" in p && !p["categories"].PStr? then None
    else Some(SearchArgs(
      p["query"].s,
      p["near"].s,
      p["limit"].i,
      if "radius" in p then Some(p["radius"].i) else None,
      if "categories" in p then Some(p["categories"].s) else None))
  }

  /** The parameter map loses nothing and adds nothing: the server reads
      back exactly the arguments that were passed, and a radius or
      categories parameter appears exactly when the argument was given. */
  lemma SearchParamsRoundTrip(args: SearchArgs)
    ensures DecodeSearchParams(SearchParams(args)) == Some(args)
  {
  }

  /** A search: validate, then send one request and classify its response. */
  function SearchPlaces(c: RestaurantClient, args: SearchArgs, send: Request -> Response)
    : (r: Result<Json, ClientError>)
    ensures SearchArgsError(args).Some? ==> r == Err(ValueError(SearchArgsError(args).value))
    ensures SearchArgsError(args).None? ==> r == Classify(send(BuildSearch(c, args).value))
  {
    var request :- BuildSearch(c, args);
    Classify(send(request))
  }

  /** Invalid arguments are rejected before any request is made: the result
      does not depend on the transport at all. */
  lemma SearchRejectsBeforeSending(
    c: RestaurantClient, args: SearchArgs, send1: Request -> Response, send2: Request -> Response)
    requires BuildSearch(c, args).Err?
    ensures SearchPlaces(c, args, send1) == SearchPlaces(c, args, send2)
    ensures SearchPlaces(c, args, send1).Err? && SearchPlaces(c, args, send1).error.ValueError?
  {
  }

  /** The three cases of the client's argument test: an empty query, an
      empty near and a limit of 0 are each rejected with their own message. */
  lemma SearchArgumentTestCases(c: RestaurantClient)
    ensures BuildSearch(c, SearchArgs("", "Atlanta, GA", DefaultLimit, None, None)) == Err(ValueError(QueryMessage))
    ensures BuildSearch(c, SearchArgs("ramen", "", DefaultLimit, None, None)) == Err(ValueError(NearMessage))
    ensures BuildSearch(c, SearchArgs("ramen", "Atlanta, GA", 0, None, None)) == Err(ValueError(LimitMessage))
  {
  }

  /** The edges of the limit and radius checks: 50 and a radius of 1 pass,
      51 and a radius of 0 are rejected. */
  lemma SearchBoundaryCases(c: RestaurantClient)
    ensures BuildSearch(c, SearchArgs("ramen", "Atlanta, GA", MaxLimit, Some(1), None)).Ok?
    ensures BuildSearch(c, SearchArgs("ramen", "Atlanta, GA", 51, None, None)) == Err(ValueError(LimitMessage))
    ensures BuildSearch(c, SearchArgs("ramen", "Atlanta, GA", DefaultLimit, Some(0), None)) == Err(ValueError(RadiusMessage))
  {
  }

  // ---------------------------------------------------------------------
  // Place details
  // ---------------------------------------------------------------------

  /** The fields requested for a place, in order. */
  const DetailFields: seq<string> :=
    ["fsq_place_id", "name", "categories", "location", "geocodes", "rating", "price", "hours", "tel", "website"]

  /** `sep.join(parts)`. */
  function Join(parts: seq<string>, sep: char): string {
    if |parts| == 0 then ""
    else if |parts| == 1 then parts[0]
    else parts[0] + [sep] + Join(parts[1..], sep)
  }

  /** `s.split(sep)`: the pieces between separators, always at least one. */
  function Split(s: string, sep: char): (pieces: seq<string>)
    ensures |pieces| >= 1
  {
    if |s| == 0 then [""]
    else if s[0] == sep then [""] + Split(s[1..], sep)
    else
      var rest := Split(s[1..], sep);
      [[s[0]] + rest[0]] + rest[1..]
  }

  /** Splitting a separator-free prefix off a string. */
  lemma {:induction false} SplitPrefix(x: string, sep: char, tail: string)
    requires sep !in x
    ensures Split(x + [sep] + tail, sep) == [x] + Split(tail, sep)
    ensures Split(x, sep) == [x]
  {
    if |x| == 0 {
      assert x + [sep] + tail == [sep] + tail;
      assert ([sep] + tail)[1..] == tail;
    } else {
      assert (x + [sep] + tail)[1..] == x[1..] + [sep] + tail;
      assert x[1..] + [] == x[1..];
      SplitPrefix(x[1..], sep, tail);
      assert [x[0]] + x[1..] == x;
    }
  }

  /** Joining separator-free parts and splitting the result gives the parts
      back, so the joined `fields` value names each field exactly once and
      in order. */
  lemma {:induction false} SplitJoin(parts: seq<string>, sep: char)
    requires |parts| >= 1
    requires forall i :: 0 <= i < |parts| ==> sep !in parts[i]
    ensures Split(Join(parts, sep), sep) == parts
  {
    if |parts| == 1 {
      SplitPrefix(parts[0], sep, "");
    } else {
      SplitJoin(parts[1..], sep);
      SplitPrefix(parts[0], sep, Join(parts[1..], sep));
      assert [parts[0]] + parts[1..] == parts;
    }
  }

  /** The `fields` value of a details request. */
  function DetailFieldsParam(): (f: string)
    ensures Split(f, ',') == DetailFields
  {
    SplitJoin(DetailFields, ',');
    Join(DetailFields, ',')
  }

  /** The details request for a place, or a `ValueError` for an empty id. */
  function BuildDetails(c: RestaurantClient, placeId: string): (r: Result<Request, ClientError>)
    ensures r.Err? <==> placeId == ""
    ensures r.Err? ==> r.error == ValueError(PlaceIdMessage)
    ensures r.Ok? ==> r.value.url == c.baseUrl + "/places/" + placeId && r.value.headers == Headers(c)
    ensures r.Ok? ==> r.value.params.Keys == {"fields"}
    ensures r.Ok? ==> r.value.params["fields"].PStr? && Split(r.value.params["fields"].s, ',') == DetailFields
  {
    if placeId == "" then Err(ValueError(PlaceIdMessage))
    else Ok(Request(c.baseUrl + "/places/" + placeId, Headers(c), map["fields" := PStr(DetailFieldsParam())]))
  }

  /** A details lookup: validate the id, then send one request and classify
      its response. */
  function GetPlaceDetails(c: RestaurantClient, placeId: string, send: Request -> Response)
    : (r: Result<Json, ClientError>)
    ensures placeId == "" ==> r == Err(ValueError(PlaceIdMessage))
    ensures placeId != "" ==> r == Classify(send(BuildDetails(c, placeId).value))
  {
    var request :- BuildDetails(c, placeId);
    Classify(send(request))
  }

  /** The keys of `d` among `keys`. */
  function Only(d: map<string, Json>, keys: set<string>): map<string, Json> {
    map k | k in d && k in keys :: d[k]
  }

  /** The requested fields cover everything the details row reads, except
      the legacy `fsq_id` fallback, which is not requested: dropping every
      other field from a details payload leaves its row unchanged. */
  lemma DetailRowReadsOnlyRequestedFields(details: map<string, Json>)
    ensures
      var kept := Only(details, (set f | f in DetailFields) + {"fsq_id"});
      Normalize.PlaceDetailsToRow(kept) == Normalize.PlaceDetailsToRow(details)
  {
    var keys := (set f | f in DetailFields) + {"fsq_id"};
    var kept := Only(details, keys);
    assert DetailFields[0] == "fsq_place_id" && DetailFields[1] == "name";
    assert DetailFields[2] == "categories" && DetailFields[3] == "location";
    assert DetailFields[4] == "geocodes" && DetailFields[5] == "rating";
    assert DetailFields[6] == "price" && DetailFields[7] == "hours";
    assert DetailFields[8] == "tel" && DetailFields[9] == "website";
    assert Normalize.DetailKeysRead <= keys;
    forall k | k in Normalize.DetailKeysRead
      ensures Get(kept, k) == Get(details, k)
    {
    }
    Normalize.DetailRowDependsOnlyOnKeysRead(kept, details);
  }
}
