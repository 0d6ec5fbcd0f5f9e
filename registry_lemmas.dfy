/** Properties of the controller operations, stated on the registry steps
    the `Window` methods are proved to perform: which calls are rejected and
    with what, what a successful add, remove or update changes and what it
    leaves alone, and how operations compose. */
module RegistryLemmas {
  import opened Values
  import opened Registry

  // ---------------------------------------------------------------------
  // Rejections

  /** A map-bound add on an unregistered map id rejects with the kind's
      "not initialized" message (a TypeError if no maps table exists) and
      changes nothing. */
  lemma AddNeedsMap(w: World, k: Kind, g: Geometry, properties: Bag, options: Bag, mapId: string, id: string)
    requires Wellformed(w) && !MapRegistered(w, mapId)
    ensures AddStep(w, k, g, properties, options, mapId, id) == Outcome(w, Err(MissingMap(w, AddMapMissing(k))))
    ensures w.yandexMaps.Some? ==> AddStep(w, k, g, properties, options, mapId, id).result.fault.text == AddMapMissing(k)
  {
  }

  /** Removing through an unregistered map id rejects with
      "Map not initialized." and changes nothing, even if the object exists. */
  lemma RemoveNeedsMap(w: World, k: Kind, id: string, mapId: string)
    requires Wellformed(w) && !MapRegistered(w, mapId)
    ensures RemoveStep(w, k, id, mapId) == Outcome(w, Err(MissingMap(w, MapNotInitialized)))
  {
  }

  /** Every view operation on an unregistered map id rejects the same way and
      changes nothing. */
  lemma ViewNeedsMap(w: World, mapId: string, c: ViewChange)
    requires Wellformed(w) && !MapRegistered(w, mapId)
    ensures ViewStep(w, mapId, c) == Outcome(w, Err(MissingMap(w, MapNotInitialized)))
    ensures ZoomQuery(w, mapId) == Err(MissingMap(w, MapNotInitialized))
    ensures CenterQuery(w, mapId) == Err(MissingMap(w, MapNotInitialized))
  {
  }

  /** The controller never creates the maps table: on a page where no map was
      initialised every map-bound operation fails with a TypeError. */
  lemma NoMapsTableIsTypeError(w: World, k: Kind, g: Geometry, properties: Bag, options: Bag, mapId: string, id: string, c: ViewChange)
    requires Wellformed(w) && w.yandexMaps.None?
    ensures AddStep(w, k, g, properties, options, mapId, id).result == Err(TypeError)
    ensures RemoveStep(w, k, id, mapId).result == Err(TypeError)
    ensures ViewStep(w, mapId, c).result == Err(TypeError)
    ensures Loaded(w).yandexMaps.None?
  {
  }

  /** Adding an id its table already holds rejects with
      "<Kind> already exists" and changes nothing. */
  lemma AddRejectsDuplicate(w: World, k: Kind, g: Geometry, properties: Bag, options: Bag, mapId: string, id: string)
    requires Wellformed(w) && MapRegistered(w, mapId)
    requires w.TableOf(k).Some? && id in w.TableOf(k).value
    ensures AddStep(w, k, g, properties, options, mapId, id) == Outcome(w, Err(Reason(AlreadyExists(k))))
  {
  }

  /** Removing an id its table does not hold rejects with "<Kind> not found"
      and changes nothing. */
  lemma RemoveRejectsMissing(w: World, k: Kind, id: string, mapId: string)
    requires Wellformed(w) && MapRegistered(w, mapId)
    requires w.TableOf(k).Some? && id !in w.TableOf(k).value
    ensures RemoveStep(w, k, id, mapId) == Outcome(w, Err(Reason(NotFound(k))))
  {
  }

  /** Updating an id its table does not hold rejects with "<Kind> not found"
      and changes nothing; a missing table is a TypeError. */
  lemma UpdateRejectsMissing(w: World, k: Kind, id: string, c: Change)
    requires Wellformed(w)
    requires w.TableOf(k).None? || id !in w.TableOf(k).value
    ensures UpdateStep(w, k, id, c).after == w
    ensures UpdateStep(w, k, id, c).result == Err(if w.TableOf(k).None? then TypeError else Reason(NotFound(k)))
  {
  }

  // ---------------------------------------------------------------------
  // Effects of a successful call

  /** A successful add creates one new object under a handle no table or
      collection refers to, binds the id to it, appends it to the map's
      collection and changes nothing else. */
  lemma AddInsertsOne(w: World, k: Kind, g: Geometry, properties: Bag, options: Bag, mapId: string, id: string)
    requires Wellformed(w) && MapRegistered(w, mapId)
    requires w.TableOf(k).Some? && id !in w.TableOf(k).value
    ensures var o := AddStep(w, k, g, properties, options, mapId, id);
      var h := w.nextHandle;
      var m := w.yandexMaps.value[mapId];
      && o.result == Ok(())
      && h !in w.shapes
      && (forall k' :: w.TableOf(k').Some? ==> h !in w.TableOf(k').value.Values)
      && o.after.TableOf(k) == Some(w.TableOf(k).value[id := h])
      && (forall k' :: k' != k ==> o.after.TableOf(k') == w.TableOf(k'))
      && o.after.shapes == w.shapes[h := Shape(k, g, properties, options)]
      && o.after.yandexMaps == Some(w.yandexMaps.value[mapId := m.(geoObjects := m.geoObjects + [h])])
  {
  }

  /** A successful remove unbinds the id and detaches its object from the
      collection of the map passed, cutting it out at its position and
      keeping the other handles in order; the object itself, every other
      table and every other map stay as they were. */
  lemma RemoveDeletesOne(w: World, k: Kind, id: string, mapId: string)
    requires Wellformed(w) && MapRegistered(w, mapId)
    requires w.TableOf(k).Some? && id in w.TableOf(k).value
    ensures var o := RemoveStep(w, k, id, mapId);
      var t := w.TableOf(k).value;
      var m := w.yandexMaps.value[mapId];
      && o.result == Ok(())
      && o.after.TableOf(k) == Some(t - {id})
      && (forall k' :: k' != k ==> o.after.TableOf(k') == w.TableOf(k'))
      && o.after.shapes == w.shapes
      && o.after.yandexMaps.Some?
      && o.after.yandexMaps.value[mapId] == m.(geoObjects := Detach(m.geoObjects, t[id]))
      && (forall x :: x in o.after.yandexMaps.value[mapId].geoObjects <==> x in m.geoObjects && x != t[id])
      && (t[id] !in m.geoObjects ==> o.after.yandexMaps.value[mapId].geoObjects == m.geoObjects)
      && (forall i :: HeldOnlyAt(m.geoObjects, t[id], i) ==> o.after.yandexMaps.value[mapId].geoObjects == CutAt(m.geoObjects, i))
      && (forall other :: other in w.yandexMaps.value && other != mapId ==>
            other in o.after.yandexMaps.value && o.after.yandexMaps.value[other] == w.yandexMaps.value[other])
  {
  }

  /** Removing through a map the object was not added to: the call succeeds
      and forgets the id, but the object stays in the collection it was
      added to, with no table entry left to reach it. */
  lemma RemoveViaOtherMapOrphans(w: World, k: Kind, id: string, mapId: string, owner: string)
    requires Wellformed(w) && MapRegistered(w, mapId) && MapRegistered(w, owner) && owner != mapId
    requires w.TableOf(k).Some? && id in w.TableOf(k).value
    requires w.TableOf(k).value[id] in w.yandexMaps.value[owner].geoObjects
    ensures var o := RemoveStep(w, k, id, mapId);
      var h := w.TableOf(k).value[id];
      && o.result == Ok(())
      && h in o.after.yandexMaps.value[owner].geoObjects
      && id !in o.after.TableOf(k).value
  {
  }

  /** An update changes the attribute it names on the one object its id is
      bound to, whichever map that object is on; tables, collections and
      every other object are untouched. */
  lemma UpdateTouchesOne(w: World, k: Kind, id: string, c: Change)
    requires Wellformed(w) && w.TableOf(k).Some? && id in w.TableOf(k).value
    ensures var o := UpdateStep(w, k, id, c);
      var h := w.TableOf(k).value[id];
      && o.result == Ok(())
      && o.after.yandexMaps == w.yandexMaps
      && (forall k' :: o.after.TableOf(k') == w.TableOf(k'))
      && o.after.nextHandle == w.nextHandle
      && o.after.shapes.Keys == w.shapes.Keys
      && o.after.shapes[h] == Changed(w.shapes[h], c)
      && (forall x :: x in w.shapes && x != h ==> o.after.shapes[x] == w.shapes[x])
  {
    assert w.TableOf(k).value[id] in w.shapes by {
      match k
      case Placemark =>
      case Polygon =>
      case Polyline =>
    }
  }

  /** Updates never consult the maps table: the same call on two worlds that
      differ only in their maps has the same result and the same effect on
      objects. */
  lemma UpdateIgnoresMaps(w: World, maps: Option<map<string, MapInstance>>, k: Kind, id: string, c: Change)
    requires Wellformed(w) && Wellformed(w.(yandexMaps := maps))
    ensures var o1 := UpdateStep(w, k, id, c);
      var o2 := UpdateStep(w.(yandexMaps := maps), k, id, c);
      o1.result == o2.result && o2.after == o1.after.(yandexMaps := maps)
  {
  }

  /** A successful view operation changes only the map it names, and never
      its `geoObjects` collection. */
  lemma ViewKeepsObjects(w: World, mapId: string, c: ViewChange)
    requires Wellformed(w) && MapRegistered(w, mapId)
    ensures var o := ViewStep(w, mapId, c);
      && o.result == Ok(())
      && o.after.shapes == w.shapes
      && (forall k :: o.after.TableOf(k) == w.TableOf(k))
      && o.after.yandexMaps.Some?
      && o.after.yandexMaps.value.Keys == w.yandexMaps.value.Keys
      && o.after.yandexMaps.value[mapId].geoObjects == w.yandexMaps.value[mapId].geoObjects
      && (forall other :: other in w.yandexMaps.value && other != mapId ==>
            o.after.yandexMaps.value[other] == w.yandexMaps.value[other])
  {
  }

  // ---------------------------------------------------------------------
  // Compositions

  /** Adding the same id twice: the second call rejects with
      "<Kind> already exists" and leaves the first call's world as it was. */
  lemma AddTwice(w: World, k: Kind, g: Geometry, properties: Bag, options: Bag, mapId: string, id: string,
                 g2: Geometry, properties2: Bag, options2: Bag)
    requires Wellformed(w) && MapRegistered(w, mapId)
    requires w.TableOf(k).Some? && id !in w.TableOf(k).value
    ensures var first := AddStep(w, k, g, properties, options, mapId, id).after;
      AddStep(first, k, g2, properties2, options2, mapId, id) == Outcome(first, Err(Reason(AlreadyExists(k))))
  {
  }

  /** Removing the same id twice: the second call rejects with
      "<Kind> not found" and changes nothing. */
  lemma RemoveTwice(w: World, k: Kind, id: string, mapId: string)
    requires Wellformed(w) && MapRegistered(w, mapId)
    requires w.TableOf(k).Some? && id in w.TableOf(k).value
    ensures var first := RemoveStep(w, k, id, mapId).after;
      RemoveStep(first, k, id, mapId) == Outcome(first, Err(Reason(NotFound(k))))
  {
  }

  /** Once removed, an id can no longer be updated. */
  lemma UpdateAfterRemove(w: World, k: Kind, id: string, mapId: string, c: Change)
    requires Wellformed(w) && MapRegistered(w, mapId)
    requires w.TableOf(k).Some? && id in w.TableOf(k).value
    ensures var first := RemoveStep(w, k, id, mapId).after;
      UpdateStep(first, k, id, c) == Outcome(first, Err(Reason(NotFound(k))))
  {
  }

  /** Detaching a handle the collection ends with, and holds nowhere else,
      gives the collection back as it was before it was appended. */
  lemma {:induction false} DetachLast(c: seq<Handle>, h: Handle)
    requires h !in c
    ensures Detach(c + [h], h) == c
  {
    if c == [] {
      assert Detach([h], h) == [] + Detach([], h);
    } else {
      assert (c + [h])[1..] == c[1..] + [h];
      DetachLast(c[1..], h);
    }
  }

  /** Removing an id bound to the handle its map's collection ends with, and
      holds nowhere else, gives back the collection without that handle. */
  lemma RemoveLastAdded(a: World, k: Kind, id: string, mapId: string, m: MapInstance, h: Handle)
    requires Wellformed(a) && MapRegistered(a, mapId)
    requires a.yandexMaps.value[mapId] == m.(geoObjects := m.geoObjects + [h]) && h !in m.geoObjects
    requires a.TableOf(k).Some? && id in a.TableOf(k).value && a.TableOf(k).value[id] == h
    ensures RemoveStep(a, k, id, mapId) == Outcome(WithMap(a, mapId, m).WithTable(k, Some(a.TableOf(k).value - {id})), Ok(()))
  {
    DetachLast(m.geoObjects, h);
  }

  /** Adding an id and then removing it through the same map restores every
      table and every map; only the detached object is left in the heap. */
  lemma AddThenRemove(w: World, k: Kind, g: Geometry, properties: Bag, options: Bag, mapId: string, id: string)
    requires Wellformed(w) && MapRegistered(w, mapId)
    requires w.TableOf(k).Some? && id !in w.TableOf(k).value
    ensures var added := AddStep(w, k, g, properties, options, mapId, id).after;
      var o := RemoveStep(added, k, id, mapId);
      && o.result == Ok(())
      && o.after.yandexMaps == w.yandexMaps
      && (forall k' :: o.after.TableOf(k') == w.TableOf(k'))
      && o.after.shapes == w.shapes[w.nextHandle := Shape(k, g, properties, options)]
  {
    var h := w.nextHandle;
    var m := w.yandexMaps.value[mapId];
    var t := w.TableOf(k).value;
    AddInsertsOne(w, k, g, properties, options, mapId, id);
    var added := AddStep(w, k, g, properties, options, mapId, id).after;
    assert h !in m.geoObjects;
    RemoveLastAdded(added, k, id, mapId, m, h);
    assert added.yandexMaps.value[mapId := m] == w.yandexMaps.value;
    assert t[id := h] - {id} == t;
  }

  /** `setZoom` followed by `getZoom` on the same map reads back the zoom
      that was set. */
  lemma SetZoomThenGetZoom(w: World, mapId: string, zoom: int, duration: Option<int>)
    requires Wellformed(w) && MapRegistered(w, mapId)
    ensures ZoomQuery(ViewStep(w, mapId, ZoomTo(zoom, duration)).after, mapId) == Ok(zoom)
  {
  }

  /** `zoomIn` and `zoomOut` step the zoom by exactly one level, so one
      undoes the other; `getZoom` reads the stepped level. */
  lemma ZoomInThenOut(w: World, mapId: string, d1: Option<int>, d2: Option<int>)
    requires Wellformed(w) && MapRegistered(w, mapId)
    ensures var z := w.yandexMaps.value[mapId].zoom;
      var zoomed := ViewStep(w, mapId, StepIn(d1)).after;
      && ZoomQuery(zoomed, mapId) == Ok(z + 1)
      && ZoomQuery(ViewStep(zoomed, mapId, StepOut(d2)).after, mapId) == Ok(z)
      && ZoomQuery(ViewStep(w, mapId, StepOut(d2)).after, mapId) == Ok(z - 1)
  {
  }

  /** `moveTo(lat, lon, ...)` then `getCenter` reads back `[lat, lon]`, and
      the zoom passed becomes the zoom. */
  lemma MoveToThenGetCenter(w: World, mapId: string, lat: int, lon: int, zoom: int, duration: Option<int>)
    requires Wellformed(w) && MapRegistered(w, mapId)
    ensures var after := ViewStep(w, mapId, CenterOn(Pair(lat, lon), zoom, duration)).after;
      && CenterQuery(after, mapId) == Ok(Pair(lat, lon))
      && ZoomQuery(after, mapId) == Ok(zoom)
  {
  }

  /** Every animated view operation hands the SDK `duration || 300`: never
      0, 300 when the caller passed nothing or 0. */
  lemma AnimatedDuration(w: World, mapId: string, c: ViewChange)
    requires Wellformed(w) && MapRegistered(w, mapId)
    requires c.CenterOn? || c.ZoomTo? || c.StepIn? || c.StepOut? || c.FitTo?
    ensures var m := ViewStep(w, mapId, c).after.yandexMaps.value[mapId];
      && m.lastDuration.Some? && m.lastDuration.value != 0
      && (c.duration.None? || c.duration == Some(0) ==> m.lastDuration == Some(DefaultDuration))
      && (c.duration.Some? && c.duration.value != 0 ==> m.lastDuration == c.duration)
  {
  }

  /** `setMapType(t)` sets the SDK type `"yandex#" + t`, whatever `t` is. */
  lemma MapTypeNamespaced(w: World, mapId: string, t: string)
    requires Wellformed(w) && MapRegistered(w, mapId)
    ensures var m := ViewStep(w, mapId, LayerTo(t)).after.yandexMaps.value[mapId];
      && m.mapType == "yandex#" + t
      && m.mapType[..7] == "yandex#"
      && m.mapType[7..] == t
  {
  }

  /** `enableScrollZoom` and `enableDrag` set their own behaviour flag and
      leave the other one as it was. */
  lemma BehaviorToggles(w: World, mapId: string, e: bool)
    requires Wellformed(w) && MapRegistered(w, mapId)
    ensures var m := w.yandexMaps.value[mapId];
      var scroll := ViewStep(w, mapId, ScrollZoomOn(e)).after.yandexMaps.value[mapId];
      var drag := ViewStep(w, mapId, DragOn(e)).after.yandexMaps.value[mapId];
      && scroll.behaviors["scrollZoom"] == e
      && drag.behaviors["drag"] == e
      && ("drag" in m.behaviors ==> scroll.behaviors["drag"] == m.behaviors["drag"])
      && ("scrollZoom" in m.behaviors ==> drag.behaviors["scrollZoom"] == m.behaviors["scrollZoom"])
  {
  }
}
