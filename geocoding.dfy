/** `geocode` and `suggest`: the adapter forwards the request to the SDK and
    maps each object of the answer to a plain result record. The SDK answer
    (or its rejection) is a parameter here. */
module Geocoding {
  import opened Values
  import opened Registry

  /** One member of the SDK's geocoding answer: its point coordinates as the
      SDK orders them, and its `name` and `description` properties, which the
      SDK may leave undefined. */
  datatype FoundObject = FoundObject(coordinates: Pair, name: Option<string>, description: Option<string>)

  /** `JsGeocodeResult(lat, lon, name, description)`. */
  datatype GeocodeResult = GeocodeResult(lat: int, lon: int, name: Option<string>, description: Option<string>)

  /** One member of the SDK's suggestion answer. */
  datatype Suggestion = Suggestion(displayName: string, value: string)

  /** `JsSuggestResult(displayName, value)`. */
  datatype SuggestResult = SuggestResult(displayName: string, value: string)

  /** One geocoding member as a result: the second coordinate is the
      latitude, the first the longitude. */
  function ToResult(obj: FoundObject): (r: GeocodeResult)
    ensures r.lat == obj.coordinates.second && r.lon == obj.coordinates.first
    ensures r.name == obj.name && r.description == obj.description
  {
    GeocodeResult(obj.coordinates.second, obj.coordinates.first, obj.name, obj.description)
  }

  /** The SDK member a result came from: `[lon, lat]` again. */
  function FromResult(r: GeocodeResult): (obj: FoundObject)
    ensures obj.coordinates == Pair(r.lon, r.lat)
  {
    FoundObject(Pair(r.lon, r.lat), r.name, r.description)
  }

  lemma ResultRoundTrip(obj: FoundObject, r: GeocodeResult)
    ensures FromResult(ToResult(obj)) == obj
    ensures ToResult(FromResult(r)) == r
  {
  }

  /** `members.map(obj => new JsGeocodeResult(...))`: one result per member,
      in the order the SDK listed them. */
  function ParseFound(members: seq<FoundObject>): (rs: seq<GeocodeResult>)
    ensures |rs| == |members|
    ensures forall i :: 0 <= i < |members| ==> rs[i] == ToResult(members[i])
  {
    if members == [] then [] else [ToResult(members[0])] + ParseFound(members[1..])
  }

  /** `result.map(obj => new JsSuggestResult(obj.displayName, obj.value))`. */
  function ParseSuggestions(answer: seq<Suggestion>): (rs: seq<SuggestResult>)
    ensures |rs| == |answer|
    ensures forall i :: 0 <= i < |answer| ==>
      rs[i].displayName == answer[i].displayName && rs[i].value == answer[i].value
  {
    if answer == [] then [] else [SuggestResult(answer[0].displayName, answer[0].value)] + ParseSuggestions(answer[1..])
  }

  /** `geocode(request, options)` given what `ymaps.geocode` settled with:
      a rejection is passed on unchanged, an answer is mapped member by
      member. */
  function Geocode(answer: Result<seq<FoundObject>>): (r: Result<seq<GeocodeResult>>)
    ensures answer.Err? <==> r.Err?
    ensures answer.Err? ==> r.fault == answer.fault
    ensures answer.Ok? ==> r.value == ParseFound(answer.value)
  {
    match answer
    case Err(f) => Err(f)
    case Ok(members) => Ok(ParseFound(members))
  }

  /** `suggest(request, options)` given what `ymaps.suggest` settled with. */
  function Suggest(answer: Result<seq<Suggestion>>): (r: Result<seq<SuggestResult>>)
    ensures answer.Err? <==> r.Err?
    ensures answer.Err? ==> r.fault == answer.fault
    ensures answer.Ok? ==> r.value == ParseSuggestions(answer.value)
  {
    match answer
    case Err(f) => Err(f)
    case Ok(found) => Ok(ParseSuggestions(found))
  }

  /** Mapping a geocoding answer loses nothing: the SDK members are
      recovered from the results, in order. */
  lemma ParseFoundInvertible(members: seq<FoundObject>)
    ensures seq(|members|, i requires 0 <= i < |members| => FromResult(ParseFound(members)[i])) == members
  {
  }

  /** Geocoding then `moveTo(r.lat, r.lon, ...)` centres the map on the
      SDK's point with its two coordinates swapped: `moveTo` passes
      `[lat, lon]` while geocoding answers `[lon, lat]`. */
  lemma GeocodeThenMoveTo(w: World, mapId: string, obj: FoundObject, zoom: int, duration: Option<int>)
    requires Wellformed(w) && MapRegistered(w, mapId)
    ensures var r := ToResult(obj);
      var after := ViewStep(w, mapId, CenterOn(Pair(r.lat, r.lon), zoom, duration)).after;
      CenterQuery(after, mapId) == Ok(Pair(obj.coordinates.second, obj.coordinates.first))
  {
  }
}
