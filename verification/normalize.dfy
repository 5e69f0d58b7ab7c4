/** The response normaliser: flattens a place-search payload into one row per
    result, and a place-details payload into one row. Each row field is the
    JSON value found at a fixed path (`At`), or None when something on the way
    is absent or falsy. A nested value that is truthy but has the wrong shape
    makes Python raise; the model returns that exception as `Err`. */
module Normalize {
  import opened Results
  import opened Json

  // ---------------------------------------------------------------------
  // Price tier
  // ---------------------------------------------------------------------

  /** Python's `isinstance(v, int)` followed by the value: `bool` is a
      subclass of `int`, so true reads as 1 and false as 0. */
  function AsPyInt(v: Json): Option<int> {
    match v
    case JInt(i) => Some(i)
    case JBool(b) => Some(if b then 1 else 0)
    case _ => None
  }

  function Min(a: int, b: int): int {
    if a <= b then a else b
  }

  /** `c * n` for a one-character string `c`. */
  function Repeat(c: char, n: nat): (s: string)
    ensures |s| == n
    ensures forall i :: 0 <= i < |s| ==> s[i] == c
  {
    if n == 0 then "" else [c] + Repeat(c, n - 1)
  }

  /** The four symbols a price tier can turn into, cheapest first. */
  const PriceSymbols: seq<string> := ["$", "$$", "$$$", "$$$$"]

  /** The "minimum price" symbol of a price tier: `t` dollar signs for an
      integer tier `t` of at least 1, capped at four; None for a missing,
      non-integer or non-positive tier. */
  function PriceTierToMinPrice(tier: Json): (r: Option<string>)
    ensures r.Some? <==> AsPyInt(tier).Some? && AsPyInt(tier).value >= 1
    ensures r.Some? ==> |r.value| == Min(AsPyInt(tier).value, 4)
    ensures r.Some? ==> forall i :: 0 <= i < |r.value| ==> r.value[i] == '$'
  {
    if tier.JNull? then None
    else if AsPyInt(tier).None? then None
    else if AsPyInt(tier).value <= 0 then None
    else Some(Repeat('$', Min(AsPyInt(tier).value, 4)))
  }

  /** Every symbol produced is one of the four well-formed ones, and the tier
      can be read back from it whenever the tier was in the range 1..4. */
  lemma MinPriceIsWellFormed(tier: Json)
    requires PriceTierToMinPrice(tier).Some?
    ensures PriceTierToMinPrice(tier).value == PriceSymbols[Min(AsPyInt(tier).value, 4) - 1]
    ensures 1 <= AsPyInt(tier).value <= 4 ==> |PriceTierToMinPrice(tier).value| == AsPyInt(tier).value
  {
  }

  /** A larger tier never yields a shorter symbol. */
  lemma MinPriceMonotone(t1: int, t2: int)
    requires 1 <= t1 <= t2
    ensures |PriceTierToMinPrice(JInt(t1)).value| <= |PriceTierToMinPrice(JInt(t2)).value|
  {
  }

  /** Python's bool-is-int: a `true` price behaves as tier 1, `false` as 0. */
  lemma BooleanPriceTier()
    ensures PriceTierToMinPrice(JBool(true)) == Some("$")
    ensures PriceTierToMinPrice(JBool(false)) == None
  {
    assert Repeat('$', 1) == "$";
  }

  // ---------------------------------------------------------------------
  // Opening hours
  // ---------------------------------------------------------------------

  /** The two hours columns: `open_now` (true, false or None) and the
      display string. Both are copied, never reinterpreted. */
  datatype HoursInfo = HoursInfo(openNow: Json, display: Json)

  /** Reads an hours object. Anything that is not an object, including an
      empty list or a string, gives None for both columns. */
  function ExtractHours(hours: Json): (r: HoursInfo)
    ensures !hours.JObj? ==> r == HoursInfo(JNull, JNull)
    ensures hours.JObj? && "open_now" in hours.fields ==> r.openNow == hours.fields["open_now"]
    ensures hours.JObj? && "display" in hours.fields ==> r.display == hours.fields["display"]
    ensures hours.JObj? && "open_now" !in hours.fields ==> r.openNow == JNull
    ensures hours.JObj? && "display" !in hours.fields ==> r.display == JNull
  {
    match hours
    case JObj(o) => HoursInfo(Get(o, "open_now"), Get(o, "display"))
    case _ => HoursInfo(JNull, JNull)
  }

  /** The hours object a server would send for the given columns: a None
      column is left out of the object altogether. */
  function HoursObject(openNow: Json, display: Json): Json {
    var withOpen := if openNow.JNull? then map[] else map["open_now" := openNow];
    JObj(if display.JNull? then withOpen else withOpen["display" := display])
  }

  /** Reading an hours object gives back exactly the values written into
      it: in particular the tri-state `open_now` (true, false, absent) keeps
      all three states apart. */
  lemma HoursRoundTrip(openNow: Json, display: Json)
    ensures ExtractHours(HoursObject(openNow, display)) == HoursInfo(openNow, display)
  {
  }

  // ---------------------------------------------------------------------
  // Fields shared by the search row and the details row
  // ---------------------------------------------------------------------

  /** The columns a search row and a details row have in common. */
  datatype PlaceFields = PlaceFields(
    placeId: Json,
    name: Json,
    category: Json,
    address: Json,
    locality: Json,
    region: Json,
    postcode: Json,
    country: Json,
    latitude: Json,
    longitude: Json)

  /** `place.get("fsq_place_id") or place.get("fsq_id")`: any falsy primary
      identifier (absent, None, "" ...) falls back to the legacy one. */
  function PlaceId(place: map<string, Json>): (id: Json)
    ensures Truthy(Get(place, "fsq_place_id")) ==> id == place["fsq_place_id"]
    ensures !Truthy(Get(place, "fsq_place_id")) ==> id == Get(place, "fsq_id")
  {
    var primary := Get(place, "fsq_place_id");
    if Truthy(primary) then primary else Get(place, "fsq_id")
  }

  /** True when `cats[0].get("name") if cats else None` does not raise, for
      `cats = categories or []`. */
  predicate CategoriesShaped(categories: Json) {
    !Truthy(categories) || (categories.JArr? && categories.items[0].JObj?)
  }

  /** The category column: the `name` of the first category, or None when the
      list is absent or empty. */
  function CategoryName(categories: Json): (r: Result<Json, Fault>)
    ensures r.Ok? <==> CategoriesShaped(categories)
    ensures !Truthy(categories) ==> r == Ok(JNull)
    ensures categories.JArr? && |categories.items| > 0 && categories.items[0].JObj? ==>
              r == Ok(Get(categories.items[0].fields, "name"))
  {
    if !Truthy(categories) then Ok(JNull)
    else match categories
      case JArr(items) =>
        // `cats[0].get`: any non-dict first element has no `.get`
        if items[0].JObj? then Ok(Get(items[0].fields, "name"))
        else Err(AttributeError("categories"))
      // `cats[0]` is a one-character string, which has no `.get`
      case JStr(_) => Err(AttributeError("categories"))
      // a JSON object has string keys only, so `cats[0]` is a missing key
      case JObj(_) => Err(KeyError("categories"))
      // true, a non-zero int or a non-zero float cannot be subscripted
      case _ => Err(TypeError("categories"))
  }

  /** The nested shapes a place object must have for its row to be built:
      `location`, `geocodes` and `geocodes.main` each absent, falsy or an
      object, and `categories` absent, falsy or a list starting with an
      object. */
  predicate PlaceShaped(place: map<string, Json>) {
    && ObjectOrFalsy(Get(place, "location"))
    && ObjectOrFalsy(Get(place, "geocodes"))
    && ObjectOrFalsy(Get(FieldsOr(Get(place, "geocodes")), "main"))
    && CategoriesShaped(Get(place, "categories"))
  }

  /** The shared columns of one place object. The order of the steps is the
      order in which Python would raise: `geocodes` and `categories` are
      touched before the row literal, where `location` and then
      `geocodes.main` are read. */
  function ExtractPlaceFields(place: map<string, Json>): (r: Result<PlaceFields, Fault>)
    ensures r.Ok? <==> PlaceShaped(place)
    ensures r.Ok? ==> r.value.placeId == PlaceId(place) && r.value.name == Get(place, "name")
    ensures r.Ok? ==> Ok(r.value.category) == CategoryName(Get(place, "categories"))
    ensures r.Ok? ==> var location := FieldsOr(Get(place, "location"));
              && r.value.address == Get(location, "address") && r.value.locality == Get(location, "locality")
              && r.value.region == Get(location, "region") && r.value.postcode == Get(location, "postcode")
              && r.value.country == Get(location, "country")
    ensures r.Ok? ==> var main := FieldsOr(Get(FieldsOr(Get(place, "geocodes")), "main"));
              r.value.latitude == Get(main, "latitude") && r.value.longitude == Get(main, "longitude")
  {
    var geocodes :- DictOrEmpty(Get(place, "geocodes"), "geocodes");
    var category :- CategoryName(Get(place, "categories"));
    var location :- DictOrEmpty(Get(place, "location"), "location");
    var main :- DictOrEmpty(Get(geocodes, "main"), "main");
    Ok(PlaceFields(
      PlaceId(place),
      Get(place, "name"),
      category,
      Get(location, "address"),
      Get(location, "locality"),
      Get(location, "region"),
      Get(location, "postcode"),
      Get(location, "country"),
      Get(main, "latitude"),
      Get(main, "longitude")))
  }

  /** Every shared column is the value at its path in the place object, read
      with the null-safe nested lookup. */
  lemma ExtractPlaceFieldsAtPaths(place: map<string, Json>)
    requires ExtractPlaceFields(place).Ok?
    ensures var p := ExtractPlaceFields(place).value;
      && p.name == At(JObj(place), ["name"])
      && p.address == At(JObj(place), ["location", "address"])
      && p.locality == At(JObj(place), ["location", "locality"])
      && p.region == At(JObj(place), ["location", "region"])
      && p.postcode == At(JObj(place), ["location", "postcode"])
      && p.country == At(JObj(place), ["location", "country"])
      && p.latitude == At(JObj(place), ["geocodes", "main", "latitude"])
      && p.longitude == At(JObj(place), ["geocodes", "main", "longitude"])
  {
  }

  // ---------------------------------------------------------------------
  // Search payload
  // ---------------------------------------------------------------------

  /** One row of the search table, columns in the order of the source. */
  datatype SearchRow = SearchRow(
    placeId: Json,
    name: Json,
    category: Json,
    address: Json,
    locality: Json,
    region: Json,
    postcode: Json,
    country: Json,
    distanceM: Json,
    latitude: Json,
    longitude: Json)
  {
    /** The columns this row shares with a details row. */
    function Shared(): PlaceFields {
      PlaceFields(placeId, name, category, address, locality, region, postcode, country, latitude, longitude)
    }
  }

  /** The row of one search result. A result that is not an object has no
      `.get`. */
  function ResultToRow(result: Json): (r: Result<SearchRow, Fault>)
    ensures r.Ok? <==> result.JObj? && PlaceShaped(result.fields)
    ensures r.Ok? ==> r.value.Shared() == ExtractPlaceFields(result.fields).value
    ensures r.Ok? ==> r.value.distanceM == Get(result.fields, "distance")
    ensures r.Err? && result.JObj? ==> r == ExtractPlaceFields(result.fields).PropagateFailure()
    ensures !result.JObj? ==> r == Err(AttributeError("results"))
  {
    if !result.JObj? then Err(AttributeError("results"))
    else
      var p :- ExtractPlaceFields(result.fields);
      Ok(SearchRow(p.placeId, p.name, p.category, p.address, p.locality, p.region,
                   p.postcode, p.country, Get(result.fields, "distance"), p.latitude, p.longitude))
  }

  /** The loop over the results list, with `toRow` the per-result step: one
      row per result, in order, stopping at the first result whose row cannot
      be built. */
  function RowsOf(toRow: Json -> Result<SearchRow, Fault>, results: seq<Json>): (r: Result<seq<SearchRow>, Fault>)
    ensures r.Ok? <==> forall i :: 0 <= i < |results| ==> toRow(results[i]).Ok?
    ensures r.Ok? ==> |r.value| == |results|
    ensures r.Ok? ==> forall i :: 0 <= i < |results| ==> toRow(results[i]) == Ok(r.value[i])
    ensures r.Err? ==> exists i :: 0 <= i < |results| && toRow(results[i]) == Err(r.error)
                                    && forall j :: 0 <= j < i ==> toRow(results[j]).Ok?
  {
    if |results| == 0 then Ok([])
    else
      match toRow(results[0])
      case Err(e) => Err(e)
      case Ok(row) =>
        match RowsOf(toRow, results[1..])
        case Err(e) =>
          var k :| 0 <= k < |results| - 1 && toRow(results[1..][k]) == Err(e)
                   && forall j :: 0 <= j < k ==> toRow(results[1..][j]).Ok?;
          assert toRow(results[k + 1]) == Err(e);
          Err(e)
        case Ok(rest) => Ok([row] + rest)
  }

  /** The search table. `results` absent, None or otherwise falsy gives no
      rows; a list gives one row per element; any other truthy value cannot
      be iterated into objects. */
  function PlacesToRows(payload: map<string, Json>): (r: Result<seq<SearchRow>, Fault>)
    ensures !Truthy(Get(payload, "results")) ==> r == Ok([])
    ensures r.Ok? ==> !Truthy(Get(payload, "results")) || Get(payload, "results").JArr?
    ensures Get(payload, "results").JArr? ==> r == RowsOf(ResultToRow, Get(payload, "results").items)
  {
    var results := Get(payload, "results");
    if !Truthy(results) then Ok([])
    else match results
      case JArr(items) => RowsOf(ResultToRow, items)
      // iterating a string or an object yields strings, which have no `.get`
      case JStr(_) => Err(AttributeError("results"))
      case JObj(_) => Err(AttributeError("results"))
      // true, a non-zero int or a non-zero float is not iterable
      case _ => Err(TypeError("results"))
  }

  /** The search table has one row per result, in the order of the results,
      each row being that result's own row. */
  lemma PlacesToRowsOnePerResult(payload: map<string, Json>, items: seq<Json>, i: int)
    requires Get(payload, "results") == JArr(items)
    requires PlacesToRows(payload).Ok?
    requires 0 <= i < |items|
    ensures |PlacesToRows(payload).value| == |items|
    ensures ResultToRow(items[i]) == Ok(PlacesToRows(payload).value[i])
  {
  }

  /** Absent nested objects never make the normaliser fail: the search table
      can be built exactly when `results` is falsy, or a list of objects
      whose nested values all have the expected shape. */
  lemma PlacesToRowsSucceedsIffShaped(payload: map<string, Json>)
    ensures PlacesToRows(payload).Ok? <==>
              (!Truthy(Get(payload, "results"))
               || (Get(payload, "results").JArr?
                   && forall i :: 0 <= i < |Get(payload, "results").items| ==>
                        Get(payload, "results").items[i].JObj?
                        && PlaceShaped(Get(payload, "results").items[i].fields)))
  {
  }

  // ---------------------------------------------------------------------
  // Details payload
  // ---------------------------------------------------------------------

  /** One details row, columns in the order of the source. */
  datatype DetailRow = DetailRow(
    placeId: Json,
    name: Json,
    category: Json,
    address: Json,
    locality: Json,
    region: Json,
    postcode: Json,
    country: Json,
    latitude: Json,
    longitude: Json,
    rating: Json,
    priceTier: Json,
    minPrice: Option<string>,
    openNow: Json,
    hours: Json,
    tel: Json,
    website: Json)
  {
    /** The columns this row shares with a search row. */
    function Shared(): PlaceFields {
      PlaceFields(placeId, name, category, address, locality, region, postcode, country, latitude, longitude)
    }
  }

  /** The row of a place-details payload: the shared columns, plus the rating
      and price tier copied as they are, the symbol derived from the tier,
      the two hours columns, phone and website. */
  function PlaceDetailsToRow(details: map<string, Json>): (r: Result<DetailRow, Fault>)
    ensures r.Ok? <==> PlaceShaped(details)
    ensures r.Ok? ==> r.value.Shared() == ExtractPlaceFields(details).value
    ensures r.Err? ==> r == ExtractPlaceFields(details).PropagateFailure()
    ensures r.Ok? ==> r.value.rating == Get(details, "rating")
    ensures r.Ok? ==> r.value.priceTier == Get(details, "price")
    ensures r.Ok? ==> r.value.minPrice == PriceTierToMinPrice(r.value.priceTier)
    ensures r.Ok? ==> HoursInfo(r.value.openNow, r.value.hours) == ExtractHours(Get(details, "hours"))
    ensures r.Ok? ==> r.value.tel == Get(details, "tel") && r.value.website == Get(details, "website")
  {
    var p :- ExtractPlaceFields(details);
    var rating := Get(details, "rating");
    var priceTier := Get(details, "price");
    var minPrice := PriceTierToMinPrice(priceTier);
    var hoursInfo := ExtractHours(Get(details, "hours"));
    Ok(DetailRow(p.placeId, p.name, p.category, p.address, p.locality, p.region,
                 p.postcode, p.country, p.latitude, p.longitude,
                 rating, priceTier, minPrice, hoursInfo.openNow, hoursInfo.display,
                 Get(details, "tel"), Get(details, "website")))
  }

  /** A details payload and a search result with the same content normalise
      alike: both succeed or both fail with the same exception, and the
      columns they share hold the same values. */
  lemma DetailAgreesWithSearch(place: map<string, Json>)
    ensures PlaceDetailsToRow(place).Ok? <==> ResultToRow(JObj(place)).Ok?
    ensures PlaceDetailsToRow(place).Err? ==>
              PlaceDetailsToRow(place).error == ResultToRow(JObj(place)).error
    ensures PlaceDetailsToRow(place).Ok? ==>
              var d := PlaceDetailsToRow(place).value;
              var s := ResultToRow(JObj(place)).value;
              && d.placeId == s.placeId && d.name == s.name && d.category == s.category
              && d.address == s.address && d.locality == s.locality && d.region == s.region
              && d.postcode == s.postcode && d.country == s.country
              && d.latitude == s.latitude && d.longitude == s.longitude
  {
  }

  /** The top-level keys of a details payload that its row reads. */
  const DetailKeysRead: set<string> :=
    {"fsq_place_id", "fsq_id", "name", "categories", "location", "geocodes",
     "rating", "price", "hours", "tel", "website"}

  /** The details row is a function of the keys it reads: two payloads that
      agree on those keys give the same row, or fail alike. */
  lemma DetailRowDependsOnlyOnKeysRead(d1: map<string, Json>, d2: map<string, Json>)
    requires forall k :: k in DetailKeysRead ==> Get(d1, k) == Get(d2, k)
    ensures PlaceDetailsToRow(d1) == PlaceDetailsToRow(d2)
  {
  }

  // ---------------------------------------------------------------------
  // The two worked examples of the test suite
  // ---------------------------------------------------------------------

  const Location: Json := JObj(map["address" := JStr("1 Main St"), "locality" := JStr("Atlanta"), "region" := JStr("GA")])
  const Geocodes: Json := JObj(map["main" := JObj(map["latitude" := JNum(337, -1), "longitude" := JNum(-843, -1)])])
  const Categories: Json := JArr([JObj(map["name" := JStr("Ramen")])])

  /** The shared columns of a place shaped like the test suite's example. */
  lemma ExamplePlaceFields(place: map<string, Json>)
    requires Get(place, "location") == Location && Get(place, "geocodes") == Geocodes
    requires Get(place, "categories") == Categories && Get(place, "fsq_place_id") == JStr("abc123")
    ensures ExtractPlaceFields(place).Ok?
    ensures ExtractPlaceFields(place).value.category == JStr("Ramen")
    ensures ExtractPlaceFields(place).value.address == JStr("1 Main St")
    ensures ExtractPlaceFields(place).value.latitude == JNum(337, -1)
    ensures ExtractPlaceFields(place).value.placeId == JStr("abc123")
  {
  }

  /** A payload whose one result is the test suite's example place gives one
      row with that place's name, category, distance and latitude. */
  lemma SearchExample(payload: map<string, Json>, place: map<string, Json>)
    requires Get(payload, "results") == JArr([JObj(place)])
    requires Get(place, "location") == Location && Get(place, "geocodes") == Geocodes
    requires Get(place, "categories") == Categories && Get(place, "fsq_place_id") == JStr("abc123")
    requires Get(place, "name") == JStr("Test Restaurant") && Get(place, "distance") == JInt(120)
    ensures PlacesToRows(payload).Ok? && |PlacesToRows(payload).value| == 1
    ensures
      var row := PlacesToRows(payload).value[0];
      && row.name == JStr("Test Restaurant") && row.category == JStr("Ramen")
      && row.distanceM == JInt(120) && row.latitude == JNum(337, -1)
      && row.placeId == JStr("abc123")
  {
  }

  /** A details payload with rating 8.6, price 2 and an open hours object
      gives price symbol "$$" and keeps `open_now` true. */
  lemma DetailsExample(details: map<string, Json>)
    requires Get(details, "location") == Location && Get(details, "geocodes") == Geocodes
    requires Get(details, "categories") == Categories && Get(details, "fsq_place_id") == JStr("abc123")
    requires Get(details, "rating") == JNum(86, -1) && Get(details, "price") == JInt(2)
    requires Get(details, "hours") == JObj(map["open_now" := JBool(true), "display" := JStr("Mon-Sun 11:00-21:00")])
    ensures PlaceDetailsToRow(details).Ok?
    ensures
      var row := PlaceDetailsToRow(details).value;
      && row.rating == JNum(86, -1) && row.priceTier == JInt(2)
      && row.minPrice == Some("$$") && row.openNow == JBool(true)
      && row.hours == JStr("Mon-Sun 11:00-21:00") && row.category == JStr("Ramen")
  {
    ExamplePlaceFields(details);
    assert Repeat('$', 2) == "$$";
  }

  /** An empty results list gives an empty table. */
  lemma EmptyResultsExample()
    ensures PlacesToRows(map["results" := JArr([])]) == Ok([])
  {
  }
}
