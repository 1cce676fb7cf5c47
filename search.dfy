/** The "Locate Hospitals" search: geocode the user's text with Nominatim,
    ask Overpass for hospitals within 50 km of the point, normalise the
    reply, and end in exactly one outcome. Each failed check stops the page
    (`st.stop()`), so the pipeline is a sequence of early exits. The two
    HTTP calls and Python's `float()` are parameters of the model. */
module HospitalSearch {
  import opened Wrappers
  import opened Hospitals

  /** Which `except` clause caught a failed call (raise_for_status, the
      request itself, or `.json()`): HTTPError, Timeout, another
      RequestException, or ValueError. The detail is the exception's text. */
  datatype Transport =
    | HttpError(detail: string)
    | Timeout
    | RequestError(detail: string)
    | InvalidResponse

  /** What an HTTP call followed by `.json()` delivered. */
  datatype Fetch<T> = Fetched(body: T) | FetchFailed(error: Transport)

  /** One Nominatim match; `lat` and `lon` are the string-encoded degrees,
      None when the key is absent or null. */
  datatype Place = Place(lat: Option<string>, lon: Option<string>)

  /** The geocoded point, after `float()`. */
  datatype GeoPoint = GeoPoint(lat: real, lon: real)

  /** The radius of the Overpass `around:` filter, in metres. */
  const SearchRadiusMeters: nat := 50000

  /** The Overpass query: hospitals (nodes, ways, relations) within a radius of a point. */
  datatype HospitalQuery = HospitalQuery(center: GeoPoint, radiusMeters: nat)

  /** The one outcome a search ends in. */
  datatype Outcome =
    | GeocodeFailed(error: Transport)         // lines 199-210
    | LocationNotFound                        // line 294
    | CoordinatesMissing                      // line 217
    | CoordinatesInvalid                      // line 224
    | OverpassFailed(error: Transport)        // lines 243-254
    | NoHospitals                             // line 292
    | Found(point: GeoPoint, hospitals: seq<Hospital>)

  /** Python truthiness of a JSON value read as a string: present, not null, not empty. */
  predicate TextTruthy(s: Option<string>) {
    s.Some? && s.value != ""
  }

  /** The geocoding half of the pipeline: either the point to search around
      or the outcome that stops the search before Overpass is asked. */
  function Geocode(geo: Fetch<seq<Place>>, parse: string -> Option<real>): (r: Result<GeoPoint, Outcome>)
    ensures geo.FetchFailed? ==> r == Failure(GeocodeFailed(geo.error))
    ensures r == Failure(LocationNotFound) <==> geo == Fetched([])
    ensures r == Failure(CoordinatesMissing) <==>
      geo.Fetched? && geo.body != [] && !(TextTruthy(geo.body[0].lat) && TextTruthy(geo.body[0].lon))
    ensures r == Failure(CoordinatesInvalid) <==>
      geo.Fetched? && geo.body != [] && TextTruthy(geo.body[0].lat) && TextTruthy(geo.body[0].lon) &&
      (parse(geo.body[0].lat.value).None? || parse(geo.body[0].lon.value).None?)
    ensures r.Success? ==>
      geo.Fetched? && geo.body != [] && TextTruthy(geo.body[0].lat) && TextTruthy(geo.body[0].lon) &&
      parse(geo.body[0].lat.value) == Some(r.value.lat) && parse(geo.body[0].lon.value) == Some(r.value.lon)
    ensures (geo.Fetched? && geo.body != [] && TextTruthy(geo.body[0].lat) && TextTruthy(geo.body[0].lon) &&
             parse(geo.body[0].lat.value).Some? && parse(geo.body[0].lon.value).Some?) ==>
      r == Success(GeoPoint(parse(geo.body[0].lat.value).value, parse(geo.body[0].lon.value).value))
  {
    match geo
    case FetchFailed(e) => Failure(GeocodeFailed(e))
    case Fetched(places) =>
      if places == [] then Failure(LocationNotFound)
      else
        var lat, lon := places[0].lat, places[0].lon;
        if !TextTruthy(lat) || !TextTruthy(lon) then Failure(CoordinatesMissing)
        else
          var latValue, lonValue := parse(lat.value), parse(lon.value);
          if latValue.None? || lonValue.None? then Failure(CoordinatesInvalid)
          else Success(GeoPoint(latValue.value, lonValue.value))
  }

  /** The Overpass query the search sends, if it gets that far. */
  function IssuedQuery(geo: Fetch<seq<Place>>, parse: string -> Option<real>): (q: Option<HospitalQuery>)
    ensures q.Some? <==> Geocode(geo, parse).Success?
    ensures q.Some? ==> q.value.center == Geocode(geo, parse).value && q.value.radiusMeters == 50000
  {
    match Geocode(geo, parse)
    case Failure(_) => None
    case Success(p) => Some(HospitalQuery(p, SearchRadiusMeters))
  }

  /** The outcome of a whole search, given what Nominatim delivered, how
      `float()` parses a string, and what Overpass answers to each query. */
  function SearchOutcome(
    geo: Fetch<seq<Place>>,
    parse: string -> Option<real>,
    overpass: HospitalQuery -> Fetch<OverpassResponse>): (o: Outcome)
    ensures o == LocationNotFound <==> geo == Fetched([])
    ensures IssuedQuery(geo, parse).None? ==> o == Geocode(geo, parse).error
    ensures o.OverpassFailed? <==>
      IssuedQuery(geo, parse).Some? && overpass(IssuedQuery(geo, parse).value).FetchFailed?
    ensures o.OverpassFailed? ==> o.error == overpass(IssuedQuery(geo, parse).value).error
    ensures o == NoHospitals <==>
      IssuedQuery(geo, parse).Some? && overpass(IssuedQuery(geo, parse).value).Fetched? &&
      Normalize(ElementsOf(overpass(IssuedQuery(geo, parse).value).body)) == []
    ensures o.Found? ==>
      Geocode(geo, parse) == Success(o.point) && o.hospitals != [] &&
      overpass(HospitalQuery(o.point, SearchRadiusMeters)).Fetched? &&
      o.hospitals == Normalize(ElementsOf(overpass(HospitalQuery(o.point, SearchRadiusMeters)).body))
    ensures (IssuedQuery(geo, parse).Some? && overpass(IssuedQuery(geo, parse).value).Fetched? &&
             Normalize(ElementsOf(overpass(IssuedQuery(geo, parse).value).body)) != []) ==>
      o == Found(IssuedQuery(geo, parse).value.center, Normalize(ElementsOf(overpass(IssuedQuery(geo, parse).value).body)))
  {
    match Geocode(geo, parse)
    case Failure(stop) => stop
    case Success(point) =>
      match overpass(HospitalQuery(point, SearchRadiusMeters))
      case FetchFailed(e) => OverpassFailed(e)
      case Fetched(reply) =>
        var hospitals := Normalize(ElementsOf(reply));
        if hospitals != [] then Found(point, hospitals) else NoHospitals
  }

  /** The page's handler for the "Find Hospitals" button: each check that
      fails ends the search at once. Besides the outcome it reports the
      Overpass query it sent, if any. */
  method FindHospitals(
    geo: Fetch<seq<Place>>,
    parse: string -> Option<real>,
    overpass: HospitalQuery -> Fetch<OverpassResponse>)
    returns (outcome: Outcome, issued: Option<HospitalQuery>)
    ensures outcome == SearchOutcome(geo, parse, overpass)
    ensures issued == IssuedQuery(geo, parse)
  {
    issued := None;
    if geo.FetchFailed? {
      outcome := GeocodeFailed(geo.error);
      return;
    }
    var geocodeData := geo.body;
    if geocodeData == [] {
      outcome := LocationNotFound;
      return;
    }
    var lat, lon := geocodeData[0].lat, geocodeData[0].lon;
    if !TextTruthy(lat) || !TextTruthy(lon) {
      outcome := CoordinatesMissing;
      return;
    }
    var latValue, lonValue := parse(lat.value), parse(lon.value);
    if latValue.None? || lonValue.None? {
      outcome := CoordinatesInvalid;
      return;
    }
    var point := GeoPoint(latValue.value, lonValue.value);
    issued := Some(HospitalQuery(point, SearchRadiusMeters));
    var reply := overpass(issued.value);
    if reply.FetchFailed? {
      outcome := OverpassFailed(reply.error);
      return;
    }
    var hospitals := CollectHospitals(reply.body);
    if hospitals != [] {
      outcome := Found(point, hospitals);
    } else {
      outcome := NoHospitals;
    }
  }

  /** When the geocoder finds nothing, no hospital query is sent, and the
      outcome is "Location not found" whatever Overpass would have said. */
  lemma EmptyGeocodeSendsNoQuery(parse: string -> Option<real>, overpass: HospitalQuery -> Fetch<OverpassResponse>)
    ensures IssuedQuery(Fetched([]), parse).None?
    ensures SearchOutcome(Fetched([]), parse, overpass) == LocationNotFound
  {
  }

  /** A missing or empty `lat` or `lon` is reported before any parsing is
      tried: the outcome does not depend on how strings parse. */
  lemma MissingCoordinatesPrecedeParsing(
    places: seq<Place>,
    parse1: string -> Option<real>,
    parse2: string -> Option<real>)
    requires places != [] && !(TextTruthy(places[0].lat) && TextTruthy(places[0].lon))
    ensures Geocode(Fetched(places), parse1) == Geocode(Fetched(places), parse2) == Failure(CoordinatesMissing)
  {
  }

  /** Only the first geocoder match is looked at. */
  lemma OnlyFirstMatchCounts(p: Place, rest: seq<Place>, parse: string -> Option<real>)
    ensures Geocode(Fetched([p] + rest), parse) == Geocode(Fetched([p]), parse)
  {
  }

  /** Once no query has been sent, Overpass cannot influence the outcome. */
  lemma NoQueryNoDependence(
    geo: Fetch<seq<Place>>,
    parse: string -> Option<real>,
    overpass1: HospitalQuery -> Fetch<OverpassResponse>,
    overpass2: HospitalQuery -> Fetch<OverpassResponse>)
    requires IssuedQuery(geo, parse).None?
    ensures SearchOutcome(geo, parse, overpass1) == SearchOutcome(geo, parse, overpass2)
  {
  }

  /** An empty hospital list is its own outcome, distinct from a failed
      Overpass call, and a non-empty one is success at the geocoded point. */
  lemma EmptyVersusSuccess(
    geo: Fetch<seq<Place>>,
    parse: string -> Option<real>,
    overpass: HospitalQuery -> Fetch<OverpassResponse>,
    reply: OverpassResponse)
    requires Geocode(geo, parse).Success?
    requires overpass(HospitalQuery(Geocode(geo, parse).value, SearchRadiusMeters)) == Fetched(reply)
    ensures Normalize(ElementsOf(reply)) == [] ==> SearchOutcome(geo, parse, overpass) == NoHospitals
    ensures Normalize(ElementsOf(reply)) != [] ==>
      SearchOutcome(geo, parse, overpass) == Found(Geocode(geo, parse).value, Normalize(ElementsOf(reply)))
  {
  }
}
