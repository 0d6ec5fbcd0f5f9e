/** The registry the adapter keeps on top of the SDK, as a value: the four
    identifier-keyed tables (each of which may not exist yet), and the SDK
    geo-objects they refer to. Every controller operation is a step from one
    `World` to the next together with the value its promise settles with. */
module Registry {
  import opened Values

  type IdTable = map<string, Handle>

  datatype World = World(
    yandexMaps: Option<map<string, MapInstance>>,
    placemarks: Option<IdTable>,
    polygons: Option<IdTable>,
    polylines: Option<IdTable>,
    shapes: map<Handle, Shape>,
    nextHandle: nat)
  {
    /** The table of one kind of geo-object. */
    function TableOf(k: Kind): Option<IdTable> {
      match k
      case Placemark => placemarks
      case Polygon => polygons
      case Polyline => polylines
    }

    /** This world with the table of kind `k` replaced by `t`. */
    function WithTable(k: Kind, t: Option<IdTable>): (w: World)
      ensures w.TableOf(k) == t
      ensures forall k' :: k' != k ==> w.TableOf(k') == TableOf(k')
      ensures w.yandexMaps == yandexMaps && w.shapes == shapes && w.nextHandle == nextHandle
    {
      match k
      case Placemark => this.(placemarks := t)
      case Polygon => this.(polygons := t)
      case Polyline => this.(polylines := t)
    }
  }

  /** A page on which no adapter script has run: no table exists. */
  const Blank: World := World(None, None, None, None, map[], 0)

  /** Every handle a table of kind `k` holds is a live object of kind `k`. */
  predicate HeldBy(t: Option<IdTable>, k: Kind, shapes: map<Handle, Shape>) {
    t.Some? ==> forall id :: id in t.value ==> t.value[id] in shapes && shapes[t.value[id]].kind == k
  }

  /** Every handle of a `geoObjects` collection is a live object. */
  predicate Attached(c: seq<Handle>, shapes: map<Handle, Shape>) {
    forall h :: h in c ==> h in shapes
  }

  /** Every live object's handle is below the next one to allocate. */
  predicate HandlesBelow(w: World) {
    forall h :: h in w.shapes ==> h < w.nextHandle
  }

  /** The registry invariant: tables and collections refer only to live SDK
      objects, and the next handle to allocate is not yet in use. */
  predicate Wellformed(w: World) {
    && HandlesBelow(w)
    && HeldBy(w.placemarks, Placemark, w.shapes)
    && HeldBy(w.polygons, Polygon, w.shapes)
    && HeldBy(w.polylines, Polyline, w.shapes)
    && (w.yandexMaps.Some? ==>
          forall id :: id in w.yandexMaps.value ==> Attached(w.yandexMaps.value[id].geoObjects, w.shapes))
  }

  predicate MapRegistered(w: World, mapId: string) {
    w.yandexMaps.Some? && mapId in w.yandexMaps.value
  }

  /** What a map-bound operation rejects with when `mapId` is not registered:
      indexing a missing `window.yandexMaps` throws, otherwise the message. */
  function MissingMap(w: World, message: string): Fault {
    if w.yandexMaps.None? then TypeError else Reason(message)
  }

  /** `const map = window.yandexMaps[mapId]; if (!map) return reject(message);` */
  function MapLookup(w: World, mapId: string, message: string): Result<MapInstance> {
    if MapRegistered(w, mapId) then Ok(w.yandexMaps.value[mapId]) else Err(MissingMap(w, message))
  }

  /** The world with the registered map `mapId` replaced by `m`. */
  function WithMap(w: World, mapId: string, m: MapInstance): World
    requires w.yandexMaps.Some?
  {
    w.(yandexMaps := Some(w.yandexMaps.value[mapId := m]))
  }

  /** The world after one operation and what its promise settles with. */
  datatype Outcome<T> = Outcome(after: World, result: Result<T>)

  /** `c` holds `h` once, at index `i`. */
  predicate HeldOnlyAt(c: seq<Handle>, h: Handle, i: int) {
    0 <= i < |c| && c[i] == h && h !in c[..i] + c[i + 1..]
  }

  /** `c` with its entry at index `i` cut out. */
  function CutAt(c: seq<Handle>, i: int): seq<Handle>
    requires 0 <= i < |c|
  {
    c[..i] + c[i + 1..]
  }

  /** `geoObjects.remove(h)`: the collection without `h`, the other handles
      kept in their order; a handle held once is cut out at its position, and
      a handle that is not in the collection leaves it as it is. */
  function Detach(c: seq<Handle>, h: Handle): (r: seq<Handle>)
    ensures forall x :: x in r <==> x in c && x != h
    ensures h !in c ==> r == c
    ensures forall i :: HeldOnlyAt(c, h, i) ==> r == CutAt(c, i)
  {
    if c == [] then []
    else
      assert forall i :: 0 < i < |c| ==> c[1..][..i - 1] == c[1..i] && c[1..][i..] == c[i + 1..];
      assert forall i :: HeldOnlyAt(c, h, i) && i > 0 ==> HeldOnlyAt(c[1..], h, i - 1) && CutAt(c, i) == [c[0]] + CutAt(c[1..], i - 1);
      (if c[0] == h then [] else [c[0]]) + Detach(c[1..], h)
  }

  /** `add<Kind>(geometry, properties, options, mapId, id)`. */
  function AddStep(w: World, k: Kind, g: Geometry, properties: Bag, options: Bag, mapId: string, id: string): (o: Outcome<()>)
    requires Wellformed(w)
    ensures Wellformed(o.after)
  {
    match MapLookup(w, mapId, AddMapMissing(k))
    case Err(f) => Outcome(w, Err(f))
    case Ok(m) =>
      match w.TableOf(k)
      case None => Outcome(w, Err(TypeError))
      case Some(t) =>
        if id in t then Outcome(w, Err(Reason(AlreadyExists(k))))
        else
          var h := w.nextHandle;
          var created := w.(shapes := w.shapes[h := Shape(k, g, properties, options)], nextHandle := h + 1);
          var attached := WithMap(created, mapId, m.(geoObjects := m.geoObjects + [h]));
          Outcome(attached.WithTable(k, Some(t[id := h])), Ok(()))
  }

  /** `remove<Kind>(id, mapId)`: detaches the registered object from the
      collection of the map passed, whichever map it was added to. */
  function RemoveStep(w: World, k: Kind, id: string, mapId: string): (o: Outcome<()>)
    requires Wellformed(w)
    ensures Wellformed(o.after)
  {
    match MapLookup(w, mapId, MapNotInitialized)
    case Err(f) => Outcome(w, Err(f))
    case Ok(m) =>
      match w.TableOf(k)
      case None => Outcome(w, Err(TypeError))
      case Some(t) =>
        if id !in t then Outcome(w, Err(Reason(NotFound(k))))
        else
          var detached := WithMap(w, mapId, m.(geoObjects := Detach(m.geoObjects, t[id])));
          Outcome(detached.WithTable(k, Some(t - {id})), Ok(()))
  }

  /** The attribute an `update<Kind><Attribute>` call sets. */
  datatype Change = NewGeometry(geometry: Geometry) | NewProperties(properties: Bag) | NewOptions(options: Bag)

  /** The SDK effect of `geometry.setCoordinates`, `properties.set` and
      `options.set` on one object: coordinates are replaced, bags are merged
      key by key with the new values winning. */
  function Changed(s: Shape, c: Change): (r: Shape)
    ensures r.kind == s.kind
    ensures c.NewGeometry? ==> r == s.(geometry := c.geometry)
    ensures c.NewProperties? ==>
      && r.geometry == s.geometry && r.options == s.options
      && r.properties.Keys == s.properties.Keys + c.properties.Keys
      && (forall key :: key in c.properties ==> r.properties[key] == c.properties[key])
      && (forall key :: key in s.properties && key !in c.properties ==> r.properties[key] == s.properties[key])
    ensures c.NewOptions? ==>
      && r.geometry == s.geometry && r.properties == s.properties
      && r.options.Keys == s.options.Keys + c.options.Keys
      && (forall key :: key in c.options ==> r.options[key] == c.options[key])
      && (forall key :: key in s.options && key !in c.options ==> r.options[key] == s.options[key])
  {
    match c
    case NewGeometry(g) => s.(geometry := g)
    case NewProperties(b) => s.(properties := s.properties + b)
    case NewOptions(b) => s.(options := s.options + b)
  }

  /** `update<Kind>Geometry/Properties/Options(id, value)`: works on the stored
      handle alone and never looks at the maps table. */
  function UpdateStep(w: World, k: Kind, id: string, c: Change): (o: Outcome<()>)
    requires Wellformed(w)
    ensures Wellformed(o.after)
  {
    match w.TableOf(k)
    case None => Outcome(w, Err(TypeError))
    case Some(t) =>
      if id !in t then Outcome(w, Err(Reason(NotFound(k))))
      else
        var h := t[id];
        Outcome(w.(shapes := w.shapes[h := Changed(w.shapes[h], c)]), Ok(()))
  }

  /** The view operations that change a map. */
  datatype ViewChange =
    | CenterOn(at: Pair, zoom: int, duration: Option<int>)
    | ZoomTo(zoom: int, duration: Option<int>)
    | StepIn(duration: Option<int>)
    | StepOut(duration: Option<int>)
    | FitTo(bounds: Bounds, duration: Option<int>)
    | ScrollZoomOn(enabled: bool)
    | DragOn(enabled: bool)
    | LayerTo(mapType: string)

  /** The SDK effect of a view operation on one map object. */
  function Viewed(m: MapInstance, c: ViewChange): MapInstance {
    match c
    case CenterOn(at, z, d) => m.(center := at, zoom := z, lastDuration := Some(AnimationDuration(d)))
    case ZoomTo(z, d) => m.(zoom := z, lastDuration := Some(AnimationDuration(d)))
    case StepIn(d) => m.(zoom := m.zoom + 1, lastDuration := Some(AnimationDuration(d)))
    case StepOut(d) => m.(zoom := m.zoom - 1, lastDuration := Some(AnimationDuration(d)))
    case FitTo(b, d) => m.(bounds := Some(b), lastDuration := Some(AnimationDuration(d)))
    case ScrollZoomOn(e) => m.(behaviors := m.behaviors["scrollZoom" := e])
    case DragOn(e) => m.(behaviors := m.behaviors["drag" := e])
    case LayerTo(t) => m.(mapType := "yandex#" + t)
  }

  /** `moveTo`, `setZoom`, `zoomIn`, `zoomOut`, `fitBounds`,
      `enableScrollZoom`, `enableDrag` and `setMapType`. */
  function ViewStep(w: World, mapId: string, c: ViewChange): (o: Outcome<()>)
    requires Wellformed(w)
    ensures Wellformed(o.after)
  {
    match MapLookup(w, mapId, MapNotInitialized)
    case Err(f) => Outcome(w, Err(f))
    case Ok(m) => Outcome(WithMap(w, mapId, Viewed(m, c)), Ok(()))
  }

  /** `getZoom(mapId)`. */
  function ZoomQuery(w: World, mapId: string): Result<int> {
    match MapLookup(w, mapId, MapNotInitialized)
    case Err(f) => Err(f)
    case Ok(m) => Ok(m.zoom)
  }

  /** `getCenter(mapId)`. */
  function CenterQuery(w: World, mapId: string): Result<Pair> {
    match MapLookup(w, mapId, MapNotInitialized)
    case Err(f) => Err(f)
    case Ok(m) => Ok(m.center)
  }

  /** Loading the controller script: `window.<kind>s = window.<kind>s || {}`
      for the three geo-object tables. The maps table is left alone. */
  function Loaded(w: World): (r: World)
    requires Wellformed(w)
    ensures Wellformed(r)
    ensures r.yandexMaps == w.yandexMaps && r.shapes == w.shapes && r.nextHandle == w.nextHandle
    ensures forall k :: r.TableOf(k).Some?
    ensures forall k :: w.TableOf(k).Some? ==> r.TableOf(k) == w.TableOf(k)
    ensures forall k :: w.TableOf(k).None? ==> r.TableOf(k) == Some(map[])
  {
    w.(placemarks := Some(w.placemarks.GetOr(map[])),
       polygons := Some(w.polygons.GetOr(map[])),
       polylines := Some(w.polylines.GetOr(map[])))
  }
}
