# restaurant_client in Dafny

A model of the two pure-logic parts of `restaurant_client`, a small client
for a places-search web API:

- the **response normaliser** (`utils.py`), which flattens a search payload
  into one row per result and a place-details payload into one row, deriving
  a `$`-symbol from the price tier and the two hours columns from the hours
  object;
- the **request client** (`client.py`), which resolves the API key, builds
  the request headers, checks the arguments of the two endpoints, builds their
  query parameters, and classifies an HTTP response as a JSON payload, an
  authentication error or a request error.

Files:

- `results.dfy`, module `Results`: `Option` (Python's `Optional`) and `Result`
  (a value or the exception raised).
- `json.dfy`, module `Json`: the JSON value datatype, Python truthiness,
  `dict.get` (absent reads as None) and the `(x or {}).get(...)` idiom.
- `normalize.dfy`, module `Normalize`: `utils.py`.
- `client.dfy`, module `Client`: `client.py`. The transport is a parameter
  `send: Request -> Response`; a `Response` carries the status code, the body
  text and the body decoded as JSON (None when it does not parse).

Modelling choices:

- A DataFrame is a `seq<SearchRow>`; a row dict is a datatype with one field
  per column, in the source's column order. Row values are copied JSON values.
- JSON numbers with a fraction are the exact decimal `JNum(mantissa, exponent)`;
  they are only copied and compared with zero.
- Python's `bool` is a subclass of `int`, and the model keeps that: a price of
  `true` gives `"$"`, a price of `false` gives None.
- The identifier fallback uses truthiness, as the source does: an empty-string
  (or `0`, or `false`) `fsq_place_id` falls back to `fsq_id`.
- A truthy nested value of the wrong shape makes Python raise: `location`,
  `geocodes` or `geocodes.main` that is not an object, `categories` whose first
  element is not an object (or that is a string, object or number), or
  `results` that is truthy but not a list. So does any element of `results`
  that is not an object, falsy ones (`null`, `0`, `""`) included. The model
  returns the exception (`AttributeError`, `TypeError`, `KeyError`, naming the
  field) as `Err`, at the point where Python raises it: `geocodes`, then
  `categories`, then `location`, then `geocodes.main`.
- The normaliser is total only over absent, null or falsy nested values and
  over objects; `PlacesToRowsSucceedsIffShaped` and `ExtractPlaceFields` state
  exactly when it succeeds. The model follows the code.
- An explicit API key of `""` is not replaced by the environment value (only a
  missing key is) and is therefore rejected; the environment value is a
  parameter.
- Argument types are Dafny types (`string`, `int`), so the source's
  `isinstance(query, str)` checks are met by construction; the remaining checks
  reject only empty strings, not blank ones.

## Model

| member | source | states |
|---|---|---|
| `Json.DictOrEmpty` | restaurant_client/src/restaurant_client/utils.py:46-47 | `(v or {}).get` succeeds exactly when `v` is falsy or an object, reads the object's keys (None for any key of a falsy `v`), and otherwise raises `AttributeError` |
| `Normalize.PriceTierToMinPrice` | restaurant_client/src/restaurant_client/utils.py:8-20 | a symbol exists exactly for an integer (or bool) tier of at least 1; it then has only `$` characters and length min(t, 4); None, non-integer and non-positive tiers give None |
| `Normalize.MinPriceIsWellFormed` | restaurant_client/src/restaurant_client/utils.py:19-20 | every symbol produced is one of `$`, `$$`, `$$$`, `$$$$`, namely the min(t,4)-th one, and has exactly t characters for t in 1..4 |
| `Normalize.MinPriceMonotone` | restaurant_client/src/restaurant_client/utils.py:19-20 | a larger tier never gives a shorter symbol |
| `Normalize.BooleanPriceTier` | restaurant_client/src/restaurant_client/utils.py:15-18 | bool passes the `int` check: `true` gives `$`, `false` gives None |
| `Normalize.ExtractHours` | restaurant_client/src/restaurant_client/utils.py:23-35 | a non-object hours value gives None for both columns; an object's `open_now` and `display` are copied as they are, absent keys giving None |
| `Normalize.HoursRoundTrip` | restaurant_client/src/restaurant_client/utils.py:31-35 | reading the hours object built from any two column values gives those values back, so the tri-state `open_now` (true, false, absent) is preserved |
| `Normalize.PlaceId` | restaurant_client/src/restaurant_client/utils.py:53 | the identifier is `fsq_place_id` when truthy, otherwise whatever `fsq_id` holds (None when absent), so an empty primary falls back |
| `Normalize.CategoryName` | restaurant_client/src/restaurant_client/utils.py:48-49 | the category is the first category's `name`, None for an absent or empty list; it raises exactly when the list is truthy and not a list starting with an object |
| `Normalize.ExtractPlaceFields` | restaurant_client/src/restaurant_client/utils.py:46-63 | the shared columns are built exactly when the nested values are shaped as `.get` needs; then the identifier follows the fallback, the category is the first category's name, and each of name, address, locality, region, postcode, country, latitude and longitude is the value read through `location` or `geocodes.main` (None through a falsy object) |
| `Normalize.ExtractPlaceFieldsAtPaths` | restaurant_client/src/restaurant_client/utils.py:46-63 | each of the eight copied shared columns equals the null-safe lookup of its key path (`name`, `location.address` … `geocodes.main.longitude`) in the place object |
| `Normalize.ResultToRow` | restaurant_client/src/restaurant_client/utils.py:45-65 | a result's row exists exactly when the result is a well-shaped object; its ten shared columns are the place's shared columns and its distance is the result's `distance`; a non-object result raises `AttributeError`, a malformed object raises what the shared extraction raises |
| `Normalize.RowsOf` | restaurant_client/src/restaurant_client/utils.py:43-65 | the loop, given the per-result step (`ResultToRow` in `PlacesToRows`), succeeds exactly when every result's step does, then gives one row per result in input order; on failure it reports the first failing result's exception |
| `Normalize.PlacesToRows` | restaurant_client/src/restaurant_client/utils.py:38-67 | absent, null or falsy `results` gives no rows; success implies `results` was falsy or a list; a list is handled by the per-result loop |
| `Normalize.PlacesToRowsOnePerResult` | restaurant_client/src/restaurant_client/utils.py:42-67 | a successful search table has exactly as many rows as results, row i being result i's row |
| `Normalize.PlacesToRowsSucceedsIffShaped` | restaurant_client/src/restaurant_client/utils.py:42-49 | the search table can be built if and only if `results` is falsy or a list of objects whose nested location, geocodes and categories have the shapes `.get` needs |
| `Normalize.PlaceDetailsToRow` | restaurant_client/src/restaurant_client/utils.py:70-104 | a details row exists exactly for well-shaped payloads, raising otherwise what the shared extraction raises; its ten shared columns are the place's shared columns; its rating and price tier are the raw values, its min price is derived from the tier, its hours columns come from the hours object, phone and website are copied |
| `Normalize.DetailAgreesWithSearch` | restaurant_client/src/restaurant_client/utils.py:75-96 | a details payload and a search result with the same content succeed or fail alike, with the same exception, and agree on every shared column |
| `Normalize.DetailRowDependsOnlyOnKeysRead` | restaurant_client/src/restaurant_client/utils.py:75-103 | two details payloads that agree on the eleven keys the row reads give the same row |
| `Normalize.ExamplePlaceFields` | restaurant_client/tests/test_basic.py:10-21 | the example place's shared columns: category `Ramen`, address `1 Main St`, latitude 33.7, id `abc123` |
| `Normalize.SearchExample` | restaurant_client/tests/test_basic.py:9-25 | a payload holding the example result gives one row with its name, category `Ramen`, distance 120 and latitude 33.7 |
| `Normalize.DetailsExample` | restaurant_client/tests/test_basic.py:28-44 | the example details give rating 8.6, price tier 2, min price `$$`, `open_now` true and the hours display string |
| `Normalize.EmptyResultsExample` | restaurant_client/tests/test_basic.py:4-6 | an empty results list gives an empty table |
| `Client.NewClient` | restaurant_client/src/restaurant_client/client.py:24-30 | an explicit non-empty key is kept; only a missing key is replaced by the environment value; a key still missing or empty is `MissingApiKey`; a built client never has an empty key |
| `Client.DefaultClient` | restaurant_client/src/restaurant_client/client.py:20-30 | `RestaurantClient()` uses version `2025-06-17` and base URL `https://places-api.foursquare.com` with the environment key, and is `MissingApiKey` when that key is missing or empty |
| `Client.KeyResolutionPrecedence` | restaurant_client/src/restaurant_client/client.py:25-27 | an explicit key gives the same outcome whatever the environment holds; with no key, the environment value acts exactly as if it had been passed explicitly |
| `Client.Headers` | restaurant_client/src/restaurant_client/client.py:32-37 | exactly the three headers `Accept: application/json`, `Authorization` starting with `Bearer `, and the configured version |
| `Client.HeadersCarryKey` | restaurant_client/src/restaurant_client/client.py:35 | the bearer token read back from the `Authorization` header is the client's key |
| `Client.Excerpt` | restaurant_client/src/restaurant_client/client.py:54 | `text[:n]` is the prefix of the text of length min(len(text), n) |
| `Client.Classify` | restaurant_client/src/restaurant_client/client.py:45-55 | the payload is returned exactly when the status is below 400 and the body parses; 401/403 always give `AuthRejected` with the status and body, and are exactly the authentication errors; any other status from 400 is `ApiError` with the status and body; an unparseable body below 400 is `InvalidJson` carrying `text[:500]` |
| `Client.StatusDecidesBeforeBody` | restaurant_client/src/restaurant_client/client.py:45-51 | for a status of 400 or more the body never matters; below 400 a parseable body is always returned |
| `Client.SearchArgsError` | restaurant_client/src/restaurant_client/client.py:71-82 | the search arguments pass exactly when query and near are non-empty, 1 <= limit <= 50, and a given radius is positive |
| `Client.SearchParams` | restaurant_client/src/restaurant_client/client.py:79-85 | the parameter keys are query, near and limit, plus radius exactly when given and categories exactly when given, and nothing else |
| `Client.SearchParamsRoundTrip` | restaurant_client/src/restaurant_client/client.py:79-85 | decoding the parameter map gives back exactly the search arguments |
| `Client.BuildSearch` | restaurant_client/src/restaurant_client/client.py:71-85 | the search is rejected with `ValueError` exactly for an empty query or near, a limit outside 1..50 or a non-positive radius, query checked first and near second; a built request targets `/places/search` with the client's headers and parameters that decode to the arguments |
| `Client.SearchPlaces` | restaurant_client/src/restaurant_client/client.py:57-87 | an argument error is returned as is; otherwise the result is the classification of the transport's answer to the built request |
| `Client.SearchRejectsBeforeSending` | restaurant_client/src/restaurant_client/client.py:71-87 | when the arguments are invalid the result is a `ValueError` that does not depend on the transport, so no request is made |
| `Client.SearchArgumentTestCases` | restaurant_client/tests/test_client.py:9-16 | the test's three cases, an empty query, an empty near and limit 0, are each rejected with their own message |
| `Client.SearchBoundaryCases` | restaurant_client/src/restaurant_client/client.py:75-82 | limit 50 with radius 1 passes; limit 51 and radius 0 are each rejected with their own message |
| `Client.SplitJoin` | restaurant_client/src/restaurant_client/client.py:103-116 | splitting a comma-join of comma-free names gives the names back, in order |
| `Client.DetailFieldsParam` | restaurant_client/src/restaurant_client/client.py:102-117 | the `fields` value splits back into the ten requested field names, in order |
| `Client.BuildDetails` | restaurant_client/src/restaurant_client/client.py:95-117 | an empty id is exactly the rejected case; otherwise the request targets `/places/<id>` with the client's headers and the single parameter `fields`, which splits into the ten field names |
| `Client.GetPlaceDetails` | restaurant_client/src/restaurant_client/client.py:89-119 | an empty id gives the `ValueError`; otherwise the result is the classification of the transport's answer to the details request |
| `Client.DetailRowReadsOnlyRequestedFields` | restaurant_client/src/restaurant_client/client.py:102-117 | keeping only the requested fields plus `fsq_id` leaves a payload's details row unchanged: the request asks for everything the row reads except the legacy id |

## Left out

- HTTP transport (`requests.get`, the 20-second timeout) and the re-raising of
  network exceptions (client.py:40-43): foreign I/O. The transport is the
  `send` parameter, and network failures are not modelled.
- Reading the `FOURSQUARE_API_KEY` environment variable (client.py:26): the
  value is the `envKey` parameter of `NewClient`.
- The text of error messages built from the status and body: the errors carry
  the status and the body (or its first 500 characters) instead.
- Python's `json` parsing of the body: the decoded value, or its absence, is
  part of the `Response`.
- URL-encoding of the place id in the details path and of the query
  parameters: done by the transport.
- pandas DataFrame construction and printing (utils.py:67, cli.py): rows are a
  sequence of records.
- A top-level payload that is not an object: `places_to_dataframe` and
  `place_details_to_row` call `.get` on it and raise `AttributeError`
  (utils.py:42, utils.py:75). The model takes the payload as a JSON object
  (`map<string, Json>`), so that case is not represented.
- The command-line front end (cli.py), including its extra `.strip()` checks,
  and the package re-exports (`__init__.py`).
- Arithmetic on rating, latitude, longitude and distance: these are copied
  JSON values. A decimal that Python would parse to `0.0` by underflow (such
  as `1e-400`) is truthy in the model.
- The source's `isinstance` checks on `query`, `near` and `fsq_place_id`, and
  non-integer `limit` or `radius` arguments: the model's argument types rule
  these out.
- Python dataclass field mutation after construction: a client is an
  immutable record.
