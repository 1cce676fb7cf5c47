/** The hospital result normaliser: turns the `elements` list of an Overpass
    reply (nodes, ways and relations tagged amenity=hospital) into flat
    records of a name and a coordinate, dropping what cannot be placed on
    the map. Python's truthiness is written out: a coordinate equal to 0
    counts as missing and an empty `center` object counts as absent. */
module Hospitals {
  import opened Wrappers
  import opened SeqFacts
  import opened FilterMaps

  /** The keys of a `center` object; a key that maps to None is present but null. */
  type CenterObject = map<string, Option<real>>

  /** One Overpass element. `tags` is the empty map when the reply has no
      `tags` key; `lat`, `lon` and `center` are None when the key is absent
      or null. */
  datatype Element = Element(
    tags: map<string, string>,
    lat: Option<real>,
    lon: Option<real>,
    center: Option<CenterObject>)

  /** The parsed Overpass reply; `elements` is None when the key is absent. */
  datatype OverpassResponse = OverpassResponse(elements: Option<seq<Element>>)

  /** One row of the hospital table: the `Name`, `Latitude` and `Longitude` keys. */
  datatype Hospital = Hospital(name: string, latitude: real, longitude: real)

  const UnnamedHospital := "Unnamed Hospital"

  /** Python truthiness of a JSON number that may be absent or null. */
  predicate NumberTruthy(c: Option<real>) {
    c.Some? && c.value != 0.0
  }

  /** Python truthiness of the `center` value: present and a non-empty object. */
  predicate CenterTruthy(center: Option<CenterObject>) {
    center.Some? && center.value != map[]
  }

  /** `d.get(key)` on a `center` object. */
  function Lookup(d: CenterObject, key: string): Option<real> {
    if key in d then d[key] else None
  }

  /** `a or b` for two optional numbers: `a` when it is truthy, otherwise `b`. */
  function Or(a: Option<real>, b: Option<real>): Option<real> {
    if NumberTruthy(a) then a else b
  }

  /** `element.get('center', {}).get(key) if element.get('center') else None`. */
  function GuardedCenter(e: Element, key: string): Option<real> {
    if CenterTruthy(e.center) then Lookup(e.center.value, key) else None
  }

  /** `element.get('tags', {}).get('name', 'Unnamed Hospital')`. */
  function HospitalName(e: Element): (name: string)
    ensures "name" in e.tags ==> name == e.tags["name"]
    ensures name == UnnamedHospital <==> "name" !in e.tags || e.tags["name"] == UnnamedHospital
  {
    if "name" in e.tags then e.tags["name"] else UnnamedHospital
  }

  /** The value `center[key]` would have with no truthiness guard at all:
      the reference against which the guarded lookup is judged. */
  function CenterValue(e: Element, key: string): Option<real> {
    match e.center
    case None => None
    case Some(d) => Lookup(d, key)
  }

  /** The record the loop body appends for one element, or None when the
      element is skipped. */
  function ToRecord(e: Element): (r: Option<Hospital>)
    ensures r.Some? ==> r.value.name == HospitalName(e)
    ensures r.Some? ==> r.value.latitude != 0.0 && r.value.longitude != 0.0
  {
    var latH := Or(e.lat, GuardedCenter(e, "lat"));
    var lonH := Or(e.lon, GuardedCenter(e, "lon"));
    if NumberTruthy(latH) && NumberTruthy(lonH) then
      Some(Hospital(HospitalName(e), latH.value, lonH.value))
    else
      None
  }

  /** ToRecord in terms of the element's raw fields, with no guard and no
      `or`: a truthy direct coordinate wins, otherwise the centre's, each axis
      on its own, and the element is kept exactly when both axes end up
      truthy. */
  lemma ToRecordSpec(e: Element)
    ensures ToRecord(e).Some? <==>
      (NumberTruthy(e.lat) || NumberTruthy(CenterValue(e, "lat"))) &&
      (NumberTruthy(e.lon) || NumberTruthy(CenterValue(e, "lon")))
    ensures ToRecord(e).Some? ==> ToRecord(e).value.name == HospitalName(e)
    ensures ToRecord(e).Some? ==>
      ToRecord(e).value.latitude == (if NumberTruthy(e.lat) then e.lat.value else CenterValue(e, "lat").value)
    ensures ToRecord(e).Some? ==>
      ToRecord(e).value.longitude == (if NumberTruthy(e.lon) then e.lon.value else CenterValue(e, "lon").value)
    ensures ToRecord(e).Some? ==> ToRecord(e).value.latitude != 0.0 && ToRecord(e).value.longitude != 0.0
  {
  }

  /** `overpass_data.get('elements', [])`. */
  function ElementsOf(response: OverpassResponse): (es: seq<Element>)
    ensures response.elements.None? ==> es == []
    ensures response.elements.Some? ==> es == response.elements.value
  {
    match response.elements
    case None => []
    case Some(es) => es
  }

  /** The hospital list the loop builds from a list of elements: the
      records of the kept elements, in order. */
  function Normalize(es: seq<Element>): (hs: seq<Hospital>)
    ensures |hs| <= |es|
  {
    FilterMap(ToRecord, es)
  }

  /** The loop of the search page: starts from an empty list and appends a
      record for every element whose two coordinates resolve to truthy values. */
  method CollectHospitals(response: OverpassResponse) returns (hospitals: seq<Hospital>)
    ensures hospitals == Normalize(ElementsOf(response))
  {
    var elements := ElementsOf(response);
    hospitals := [];
    var i := 0;
    while i < |elements|
      invariant 0 <= i <= |elements|
      invariant hospitals == Normalize(elements[..i])
    {
      var element := elements[i];
      var name := HospitalName(element);
      var latH := Or(element.lat, GuardedCenter(element, "lat"));
      var lonH := Or(element.lon, GuardedCenter(element, "lon"));
      ghost var before := hospitals;
      if NumberTruthy(latH) && NumberTruthy(lonH) {
        hospitals := hospitals + [Hospital(name, latH.value, lonH.value)];
      }
      assert hospitals == before + Emit(ToRecord, element);
      FilterMapSingleton(ToRecord, element);
      FilterMapAppend(ToRecord, elements[..i], [element]);
      TakeSnoc(elements, i);
      i := i + 1;
    }
    TakeAll(elements);
  }

  /** Normalising is compositional: a list split in two normalises to the
      two normalised halves, in order. */
  lemma NormalizeAppend(a: seq<Element>, b: seq<Element>)
    ensures Normalize(a + b) == Normalize(a) + Normalize(b)
  {
    FilterMapAppend(ToRecord, a, b);
  }

  /** The output is the order-preserving image of the kept elements: there
      is a strictly increasing list of positions, exactly those of the
      elements that yield a record, and the k-th output record is the record
      of the element at the k-th of them. */
  lemma NormalizeIsImageOfKept(es: seq<Element>)
    ensures
      var ks := KeptIndices(ToRecord, es);
      && |Normalize(es)| == |ks|
      && (forall k, l :: 0 <= k < l < |ks| ==> ks[k] < ks[l])
      && (forall i :: 0 <= i < |es| ==> (i in ks <==> ToRecord(es[i]).Some?))
      && (forall k :: 0 <= k < |ks| ==> 0 <= ks[k] < |es| && ToRecord(es[ks[k]]) == Some(Normalize(es)[k]))
  {
    KeptIndicesExact(ToRecord, es);
    FilterMapIsImageOfKept(ToRecord, es);
  }

  /** A record is in the output iff some element of the input yields it. */
  lemma NormalizeMembership(es: seq<Element>, h: Hospital)
    ensures h in Normalize(es) <==> exists i :: 0 <= i < |es| && ToRecord(es[i]) == Some(h)
  {
    FilterMapMembership(ToRecord, es, h);
  }

  /** The output has one record per element exactly when every element is kept. */
  lemma NormalizeKeepsAllIff(es: seq<Element>)
    ensures |Normalize(es)| == |es| <==> forall i :: 0 <= i < |es| ==> ToRecord(es[i]).Some?
  {
    FilterMapKeepsAllIff(ToRecord, es);
  }

  /** An element that is dropped leaves no trace: removing it from the
      input does not change the output. */
  lemma DroppedElementIsInvisible(es: seq<Element>, i: int)
    requires 0 <= i < |es| && ToRecord(es[i]).None?
    ensures Normalize(es[..i] + es[i + 1..]) == Normalize(es)
  {
    FilterMapDropped(ToRecord, es, i);
  }

  /** An empty `center` object behaves exactly like an absent one. */
  lemma EmptyCenterIsAbsent(e: Element)
    ensures ToRecord(e.(center := Some(map[]))) == ToRecord(e.(center := None))
  {
  }

  /** A direct coordinate of 0 counts as missing: with no centre to fall
      back on, the element is dropped. */
  lemma ZeroCoordinateDrops(e: Element)
    requires e.lat == Some(0.0) && e.center.None?
    ensures ToRecord(e).None?
  {
  }

  /** Lat and lon are resolved independently: a direct latitude can be
      paired with a centre longitude. */
  lemma MixedSourcesExample()
    ensures ToRecord(Element(map[], Some(40.5), None, Some(map["lat" := Some(1.0), "lon" := Some(-74.25)])))
      == Some(Hospital(UnnamedHospital, 40.5, -74.25))
  {
    var d: CenterObject := map["lat" := Some(1.0), "lon" := Some(-74.25)];
    var e := Element(map[], Some(40.5), None, Some(d));
    assert "lat" in d && "lon" in d && d != map[];
    assert GuardedCenter(e, "lon") == Some(-74.25);
    assert Or(e.lat, GuardedCenter(e, "lat")) == Some(40.5);
    assert Or(e.lon, GuardedCenter(e, "lon")) == Some(-74.25);
  }
}
