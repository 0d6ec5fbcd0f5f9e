/** `window.yandexMapController`: the global registry tables as the fields of
    a `Window` object, and every controller operation as a method that checks
    the tables, then either rejects without touching anything or updates the
    tables and the map's `geoObjects` in place. Each method is proved to do
    exactly what the corresponding step of `Registry` describes. */
module Controller {
  import opened Values
  import opened Registry

  class Window {
    var yandexMaps: Option<map<string, MapInstance>>
    var placemarks: Option<IdTable>
    var polygons: Option<IdTable>
    var polylines: Option<IdTable>
    /** The SDK geo-objects created so far, by handle. */
    var shapes: map<Handle, Shape>
    /** The handle the next `new ymaps.<Kind>(...)` returns. */
    var nextHandle: nat

    function State(): World
      reads this
    {
      World(yandexMaps, placemarks, polygons, polylines, shapes, nextHandle)
    }

    predicate Valid()
      reads this
    {
      Wellformed(State())
    }

    /** A page before any adapter script ran. */
    constructor ()
      ensures Valid() && State() == Blank
    {
      yandexMaps, placemarks, polygons, polylines := None, None, None, None;
      shapes, nextHandle := map[], 0;
    }

    /** The top of the controller script: create the geo-object tables that
        do not exist yet. */
    method LoadControllerScript()
      requires Valid()
      modifies this
      ensures Valid() && State() == Loaded(old(State()))
    {
      placemarks := Some(placemarks.GetOr(map[]));
      polygons := Some(polygons.GetOr(map[]));
      polylines := Some(polylines.GetOr(map[]));
    }

    function TableOf(k: Kind): Option<IdTable>
      reads this
    {
      State().TableOf(k)
    }

    /** `window.<kind>s = t`. */
    method SetTable(k: Kind, t: Option<IdTable>)
      modifies this
      ensures State() == old(State()).WithTable(k, t)
    {
      match k
      case Placemark => placemarks := t;
      case Polygon => polygons := t;
      case Polyline => polylines := t;
    }

    /** The body shared by `moveTo`, `setZoom`, `zoomIn`, `zoomOut`,
        `fitBounds`, `enableScrollZoom`, `enableDrag` and `setMapType`. */
    method View(mapId: string, c: ViewChange) returns (r: Result<()>)
      requires Valid()
      modifies this
      ensures Valid()
      ensures Outcome(State(), r) == ViewStep(old(State()), mapId, c)
    {
      if yandexMaps.None? {
        return Err(TypeError);
      }
      if mapId !in yandexMaps.value {
        return Err(Reason(MapNotInitialized));
      }
      var m := yandexMaps.value[mapId];
      yandexMaps := Some(yandexMaps.value[mapId := Viewed(m, c)]);
      r := Ok(());
    }

    method MoveTo(lat: int, lon: int, zoom: int, duration: Option<int>, mapId: string) returns (r: Result<()>)
      requires Valid()
      modifies this
      ensures Valid()
      ensures Outcome(State(), r) == ViewStep(old(State()), mapId, CenterOn(Pair(lat, lon), zoom, duration))
    {
      r := View(mapId, CenterOn(Pair(lat, lon), zoom, duration));
    }

    method SetZoom(zoom: int, duration: Option<int>, mapId: string) returns (r: Result<()>)
      requires Valid()
      modifies this
      ensures Valid()
      ensures Outcome(State(), r) == ViewStep(old(State()), mapId, ZoomTo(zoom, duration))
    {
      r := View(mapId, ZoomTo(zoom, duration));
    }

    method ZoomIn(duration: Option<int>, mapId: string) returns (r: Result<()>)
      requires Valid()
      modifies this
      ensures Valid()
      ensures Outcome(State(), r) == ViewStep(old(State()), mapId, StepIn(duration))
    {
      r := View(mapId, StepIn(duration));
    }

    method ZoomOut(duration: Option<int>, mapId: string) returns (r: Result<()>)
      requires Valid()
      modifies this
      ensures Valid()
      ensures Outcome(State(), r) == ViewStep(old(State()), mapId, StepOut(duration))
    {
      r := View(mapId, StepOut(duration));
    }

    /** Reads the current zoom of a registered map; changes nothing. */
    method GetZoom(mapId: string) returns (r: Result<int>)
      ensures r.Ok? <==> MapRegistered(State(), mapId)
      ensures r.Ok? ==> r.value == yandexMaps.value[mapId].zoom
      ensures r.Err? ==> r.fault == MissingMap(State(), MapNotInitialized)
      ensures r == ZoomQuery(State(), mapId)
    {
      if yandexMaps.None? {
        return Err(TypeError);
      }
      if mapId !in yandexMaps.value {
        return Err(Reason(MapNotInitialized));
      }
      r := Ok(yandexMaps.value[mapId].zoom);
    }

    /** Reads the current centre of a registered map; changes nothing. */
    method GetCenter(mapId: string) returns (r: Result<Pair>)
      ensures r.Ok? <==> MapRegistered(State(), mapId)
      ensures r.Ok? ==> r.value == yandexMaps.value[mapId].center
      ensures r.Err? ==> r.fault == MissingMap(State(), MapNotInitialized)
      ensures r == CenterQuery(State(), mapId)
    {
      if yandexMaps.None? {
        return Err(TypeError);
      }
      if mapId !in yandexMaps.value {
        return Err(Reason(MapNotInitialized));
      }
      r := Ok(yandexMaps.value[mapId].center);
    }

    method FitBounds(swLat: int, swLon: int, neLat: int, neLon: int, duration: Option<int>, mapId: string) returns (r: Result<()>)
      requires Valid()
      modifies this
      ensures Valid()
      ensures Outcome(State(), r) ==
        ViewStep(old(State()), mapId, FitTo(Bounds(Pair(swLat, swLon), Pair(neLat, neLon)), duration))
    {
      r := View(mapId, FitTo(Bounds(Pair(swLat, swLon), Pair(neLat, neLon)), duration));
    }

    method EnableScrollZoom(enabled: bool, mapId: string) returns (r: Result<()>)
      requires Valid()
      modifies this
      ensures Valid()
      ensures Outcome(State(), r) == ViewStep(old(State()), mapId, ScrollZoomOn(enabled))
    {
      r := View(mapId, ScrollZoomOn(enabled));
    }

    method EnableDrag(enabled: bool, mapId: string) returns (r: Result<()>)
      requires Valid()
      modifies this
      ensures Valid()
      ensures Outcome(State(), r) == ViewStep(old(State()), mapId, DragOn(enabled))
    {
      r := View(mapId, DragOn(enabled));
    }

    method SetMapType(mapType: string, mapId: string) returns (r: Result<()>)
      requires Valid()
      modifies this
      ensures Valid()
      ensures Outcome(State(), r) == ViewStep(old(State()), mapId, LayerTo(mapType))
    {
      r := View(mapId, LayerTo(mapType));
    }

    /** The body shared by `addPlacemark`, `addPolygon` and `addPolyline`. */
    method Add(k: Kind, g: Geometry, properties: Bag, options: Bag, mapId: string, id: string) returns (r: Result<()>)
      requires Valid()
      modifies this
      ensures Valid()
      ensures Outcome(State(), r) == AddStep(old(State()), k, g, properties, options, mapId, id)
    {
      if yandexMaps.None? {
        return Err(TypeError);
      }
      if mapId !in yandexMaps.value {
        return Err(Reason(AddMapMissing(k)));
      }
      var m := yandexMaps.value[mapId];
      var t := TableOf(k);
      if t.None? {
        return Err(TypeError);
      }
      if id in t.value {
        return Err(Reason(AlreadyExists(k)));
      }
      ghost var w := State();
      // new ymaps.<Kind>(geometry, properties, options)
      var h := nextHandle;
      nextHandle := nextHandle + 1;
      shapes := shapes[h := Shape(k, g, properties, options)];
      ghost var created := State();
      assert created == w.(shapes := w.shapes[h := Shape(k, g, properties, options)], nextHandle := h + 1);
      // map.geoObjects.add(object)
      yandexMaps := Some(yandexMaps.value[mapId := m.(geoObjects := m.geoObjects + [h])]);
      assert State() == WithMap(created, mapId, m.(geoObjects := m.geoObjects + [h]));
      // window.<kind>s[id] = object
      SetTable(k, Some(t.value[id := h]));
      r := Ok(());
      assert Outcome(State(), r) == AddStep(w, k, g, properties, options, mapId, id);
    }

    /** The body shared by `removePlacemark`, `removePolygon` and `removePolyline`. */
    method Remove(k: Kind, id: string, mapId: string) returns (r: Result<()>)
      requires Valid()
      modifies this
      ensures Valid()
      ensures Outcome(State(), r) == RemoveStep(old(State()), k, id, mapId)
    {
      if yandexMaps.None? {
        return Err(TypeError);
      }
      if mapId !in yandexMaps.value {
        return Err(Reason(MapNotInitialized));
      }
      var m := yandexMaps.value[mapId];
      var t := TableOf(k);
      if t.None? {
        return Err(TypeError);
      }
      if id !in t.value {
        return Err(Reason(NotFound(k)));
      }
      // map.geoObjects.remove(object)
      yandexMaps := Some(yandexMaps.value[mapId := m.(geoObjects := Detach(m.geoObjects, t.value[id]))]);
      // delete window.<kind>s[id]
      SetTable(k, Some(t.value - {id}));
      r := Ok(());
    }

    /** The body shared by the nine `update<Kind><Attribute>` operations. */
    method Update(k: Kind, id: string, c: Change) returns (r: Result<()>)
      requires Valid()
      modifies this
      ensures Valid()
      ensures Outcome(State(), r) == UpdateStep(old(State()), k, id, c)
    {
      var t := TableOf(k);
      if t.None? {
        return Err(TypeError);
      }
      if id !in t.value {
        return Err(Reason(NotFound(k)));
      }
      var h := t.value[id];
      shapes := shapes[h := Changed(shapes[h], c)];
      r := Ok(());
    }

    method AddPlacemark(geometry: Pair, properties: Bag, options: Bag, mapId: string, placemarkId: string) returns (r: Result<()>)
      requires Valid()
      modifies this
      ensures Valid()
      ensures Outcome(State(), r) == AddStep(old(State()), Placemark, Point(geometry), properties, options, mapId, placemarkId)
    {
      r := Add(Placemark, Point(geometry), properties, options, mapId, placemarkId);
    }

    method RemovePlacemark(placemarkId: string, mapId: string) returns (r: Result<()>)
      requires Valid()
      modifies this
      ensures Valid()
      ensures Outcome(State(), r) == RemoveStep(old(State()), Placemark, placemarkId, mapId)
    {
      r := Remove(Placemark, placemarkId, mapId);
    }

    method UpdatePlacemarkGeometry(placemarkId: string, newGeometry: Pair) returns (r: Result<()>)
      requires Valid()
      modifies this
      ensures Valid()
      ensures Outcome(State(), r) == UpdateStep(old(State()), Placemark, placemarkId, NewGeometry(Point(newGeometry)))
    {
      r := Update(Placemark, placemarkId, NewGeometry(Point(newGeometry)));
    }

    method UpdatePlacemarkProperties(placemarkId: string, newProperties: Bag) returns (r: Result<()>)
      requires Valid()
      modifies this
      ensures Valid()
      ensures Outcome(State(), r) == UpdateStep(old(State()), Placemark, placemarkId, NewProperties(newProperties))
    {
      r := Update(Placemark, placemarkId, NewProperties(newProperties));
    }

    method UpdatePlacemarkOptions(placemarkId: string, newOptions: Bag) returns (r: Result<()>)
      requires Valid()
      modifies this
      ensures Valid()
      ensures Outcome(State(), r) == UpdateStep(old(State()), Placemark, placemarkId, NewOptions(newOptions))
    {
      r := Update(Placemark, placemarkId, NewOptions(newOptions));
    }

    method AddPolygon(geometry: seq<seq<Pair>>, properties: Bag, options: Bag, mapId: string, polygonId: string) returns (r: Result<()>)
      requires Valid()
      modifies this
      ensures Valid()
      ensures Outcome(State(), r) == AddStep(old(State()), Polygon, Rings(geometry), properties, options, mapId, polygonId)
    {
      r := Add(Polygon, Rings(geometry), properties, options, mapId, polygonId);
    }

    method RemovePolygon(polygonId: string, mapId: string) returns (r: Result<()>)
      requires Valid()
      modifies this
      ensures Valid()
      ensures Outcome(State(), r) == RemoveStep(old(State()), Polygon, polygonId, mapId)
    {
      r := Remove(Polygon, polygonId, mapId);
    }

    method UpdatePolygonGeometry(polygonId: string, newGeometry: seq<seq<Pair>>) returns (r: Result<()>)
      requires Valid()
      modifies this
      ensures Valid()
      ensures Outcome(State(), r) == UpdateStep(old(State()), Polygon, polygonId, NewGeometry(Rings(newGeometry)))
    {
      r := Update(Polygon, polygonId, NewGeometry(Rings(newGeometry)));
    }

    method UpdatePolygonProperties(polygonId: string, newProperties: Bag) returns (r: Result<()>)
      requires Valid()
      modifies this
      ensures Valid()
      ensures Outcome(State(), r) == UpdateStep(old(State()), Polygon, polygonId, NewProperties(newProperties))
    {
      r := Update(Polygon, polygonId, NewProperties(newProperties));
    }

    method UpdatePolygonOptions(polygonId: string, newOptions: Bag) returns (r: Result<()>)
      requires Valid()
      modifies this
      ensures Valid()
      ensures Outcome(State(), r) == UpdateStep(old(State()), Polygon, polygonId, NewOptions(newOptions))
    {
      r := Update(Polygon, polygonId, NewOptions(newOptions));
    }

    method AddPolyline(geometry: seq<Pair>, properties: Bag, options: Bag, mapId: string, polylineId: string) returns (r: Result<()>)
      requires Valid()
      modifies this
      ensures Valid()
      ensures Outcome(State(), r) == AddStep(old(State()), Polyline, Path(geometry), properties, options, mapId, polylineId)
    {
      r := Add(Polyline, Path(geometry), properties, options, mapId, polylineId);
    }

    method RemovePolyline(polylineId: string, mapId: string) returns (r: Result<()>)
      requires Valid()
      modifies this
      ensures Valid()
      ensures Outcome(State(), r) == RemoveStep(old(State()), Polyline, polylineId, mapId)
    {
      r := Remove(Polyline, polylineId, mapId);
    }

    method UpdatePolylineGeometry(polylineId: string, newGeometry: seq<Pair>) returns (r: Result<()>)
      requires Valid()
      modifies this
      ensures Valid()
      ensures Outcome(State(), r) == UpdateStep(old(State()), Polyline, polylineId, NewGeometry(Path(newGeometry)))
    {
      r := Update(Polyline, polylineId, NewGeometry(Path(newGeometry)));
    }

    method UpdatePolylineProperties(polylineId: string, newProps: Bag) returns (r: Result<()>)
      requires Valid()
      modifies this
      ensures Valid()
      ensures Outcome(State(), r) == UpdateStep(old(State()), Polyline, polylineId, NewProperties(newProps))
    {
      r := Update(Polyline, polylineId, NewProperties(newProps));
    }

    method UpdatePolylineOptions(polylineId: string, newOpts: Bag) returns (r: Result<()>)
      requires Valid()
      modifies this
      ensures Valid()
      ensures Outcome(State(), r) == UpdateStep(old(State()), Polyline, polylineId, NewOptions(newOpts))
    {
      r := Update(Polyline, polylineId, NewOptions(newOpts));
    }
  }
}
