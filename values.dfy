/** Plain values exchanged between the host application, the adapter and the
    mapping SDK: coordinates, property bags, geometries, the SDK objects the
    adapter keeps track of, and the faults it rejects with. */
module Values {

  datatype Option<T> = None | Some(value: T) {
    function GetOr(default: T): T {
      match this
      case Some(v) => v
      case None => default
    }
  }

  /** A two-element coordinate array `[first, second]` exactly as the adapter
      hands it to (or reads it from) the SDK. Coordinates are integers here. */
  datatype Pair = Pair(first: int, second: int)

  /** `[[swLat, swLon], [neLat, neLon]]`. */
  datatype Bounds = Bounds(southWest: Pair, northEast: Pair)

  /** An untyped key/value bag (`properties`, `options`). */
  type Bag = map<string, string>

  /** The geometry of a geo-object: a placemark's point, a polyline's path or
      a polygon's rings. The SDK never interprets it in this model. */
  datatype Geometry = Point(at: Pair) | Path(points: seq<Pair>) | Rings(rings: seq<seq<Pair>>)

  /** The three kinds of geo-object, each with its own registry table. */
  datatype Kind = Placemark | Polygon | Polyline

  /** The identity of an SDK geo-object (what `new ymaps.Placemark(...)` and
      friends return). Two handles are the same object iff they are equal. */
  type Handle = nat

  /** The attributes of an SDK geo-object the adapter reads or writes. */
  datatype Shape = Shape(kind: Kind, geometry: Geometry, properties: Bag, options: Bag)

  /** The part of the `state` argument of `new ymaps.Map` the model tracks. */
  datatype MapState = MapState(center: Pair, zoom: int, mapType: string)

  /** An SDK map object: its view, the behaviours the adapter toggled, the
      duration of the last animation it was asked for, and its `geoObjects`
      collection in insertion order. */
  datatype MapInstance = MapInstance(
    container: string,
    center: Pair,
    zoom: int,
    mapType: string,
    bounds: Option<Bounds>,
    behaviors: map<string, bool>,
    lastDuration: Option<int>,
    options: Bag,
    geoObjects: seq<Handle>)

  /** What a rejected promise carries: one of the adapter's own messages, or
      the TypeError JavaScript throws when a registry table that does not
      exist is indexed (caught and passed to `reject`). */
  datatype Fault = Reason(text: string) | TypeError

  datatype Result<T> = Ok(value: T) | Err(fault: Fault)

  function KindName(k: Kind): string {
    match k
    case Placemark => "Placemark"
    case Polygon => "Polygon"
    case Polyline => "Polyline"
  }

  function AlreadyExists(k: Kind): string {
    KindName(k) + " already exists"
  }

  function NotFound(k: Kind): string {
    KindName(k) + " not found"
  }

  const MapNotInitialized: string := "Map not initialized."

  /** The message `add<Kind>` rejects with when the map is not registered:
      `addPolygon` alone words it differently. */
  function AddMapMissing(k: Kind): string {
    if k == Polygon then "Map not initialized yet." else MapNotInitialized
  }

  const DefaultDuration: int := 300

  /** `duration || 300`: an absent duration and the falsy number 0 both fall
      back to 300 ms; every other duration is passed through. */
  function AnimationDuration(duration: Option<int>): (ms: int)
    ensures ms != 0
    ensures duration.None? ==> ms == DefaultDuration
    ensures duration == Some(0) ==> ms == DefaultDuration
    ensures duration.Some? && duration.value != 0 ==> ms == duration.value
  {
    match duration
    case Some(d) => if d != 0 then d else DefaultDuration
    case None => DefaultDuration
  }
}
