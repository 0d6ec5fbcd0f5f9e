# Yandex Maps JavaScript adapter — registry model

The adapter exposes the Yandex Maps JavaScript SDK to a host application
through `window.yandexMapController`, a set of promise-returning operations,
and through `initYandexMap`, which creates a map once its container exists.
Everything it keeps lives in four global tables on `window`:

- `yandexMaps`: map id → SDK map object (created only by `initYandexMap`);
- `placemarks`, `polygons`, `polylines`: object id → SDK geo-object
  (created empty when the controller script loads, and lazily while seeding).

Each SDK map carries a `geoObjects` collection of the geo-objects attached to
it. This project models that bookkeeping and proves what each operation does
to it.

Structure:

- `values.dfy` (`Values`): coordinates, bags, geometries, SDK objects,
  the rejection messages and the 300 ms default for a falsy duration.
- `registry.dfy` (`Registry`): the four tables and the SDK objects as a
  value `World`, and one step function per operation (`AddStep`,
  `RemoveStep`, `UpdateStep`, `ViewStep`, the queries, script load).
  A table that does not exist is `None`; indexing it throws, which the
  operation's `catch` turns into a rejection, modelled as `Err(TypeError)`.
  SDK geo-objects are identified by handles so that a table entry and a
  collection entry can refer to the same object.
- `controller.dfy` (`Controller`): the `Window` class whose fields are the
  tables, and one method per controller operation that updates the fields in
  place. Each method is proved to perform exactly its `Registry` step and to
  keep the registry invariant (`Wellformed`: tables and collections refer
  only to live objects of the right kind).
- `map_init.dfy` (`MapInit`): the `ymaps.ready` callback of `initYandexMap`
  as a method with one loop per seed list, proved against the function
  `Ready`.
- `map_init_props.dfy` (`MapInitProps`): what `Ready` guarantees.
- `registry_lemmas.dfy` (`RegistryLemmas`): what the controller operations
  guarantee, alone and in sequence.
- `geocoding.dfy` (`Geocoding`): how `geocode` and `suggest` map the SDK's
  answers to result records.

Behaviour of the code that the model keeps and proves:

- The map-missing rejection is `"Map not initialized."` with a full stop,
  and `addPolygon` alone says `"Map not initialized yet."`
  (yandex_map_controller.js:363).
- The controller script creates the three geo-object tables when it loads
  (yandex_map_controller.js:4-6) but never `window.yandexMaps`, which only
  `initYandexMap` creates (yandex_map_init.js:36). Before the first map is
  initialised every map-bound operation therefore rejects with a TypeError
  (`RegistryLemmas.NoMapsTableIsTypeError`).
- An object can stay attached to a map with no table entry left to reach
  it, in two ways. `remove<Kind>` detaches from the map passed, not from the
  map the object was added to (yandex_map_controller.js:279-285,
  `RegistryLemmas.RemoveViaOtherMapOrphans`). Seeding assigns by id without
  a check (yandex_map_init.js:49, 57, 65), so a repeated seed id leaves the
  earlier object attached but unregistered (`MapInitProps.ReadySeedsTable`
  together with `MapInitProps.ReadyAttachesEverySeed`).
- The code uses two coordinate orders. `moveTo` passes `[lat, lon]` as the
  centre (yandex_map_controller.js:64), `fitBounds` builds
  `[[swLat, swLon], [neLat, neLon]]` (179), and the init `state.center` and
  placemark seed geometry are documented latitude first
  (yandex_map_init.js:6, 10). But `getCenter` is documented to return
  `[longitude, latitude]` (yandex_map_controller.js:150), `addPlacemark` and
  `updatePlacemarkGeometry` document their geometry longitude first (246,
  296), and `geocode` reads latitude from `coords[1]` and longitude from
  `coords[0]` (577-578). Whichever order the SDK uses, one group swaps
  latitude and longitude. The model passes coordinates through unchanged:
  `RegistryLemmas.MoveToThenGetCenter` proves that `getCenter` returns the
  `[lat, lon]` that `moveTo` set, against the documented order, and
  `Geocoding.GeocodeThenMoveTo` proves that moving to a geocoded result
  centres the map on the SDK point with its coordinates swapped.

## Model

| member | source | states |
|---|---|---|
| Values.AnimationDuration | lib/src/js/yandex_map_controller.js:64 | the duration or, when it is falsy, 300 ms: absent or 0 gives 300 ms, any other duration passes through, the result is never 0 |
| Registry.Loaded | lib/src/js/yandex_map_controller.js:4-6 | loading the script creates each missing geo-object table empty, keeps existing ones, never creates the maps table, keeps the invariant |
| Controller.Window.LoadControllerScript | lib/src/js/yandex_map_controller.js:4-6 | the fields become `Loaded` of the old state |
| Registry.Detach | lib/src/js/yandex_map_controller.js:284 | `geoObjects.remove(h)` leaves exactly the other handles; a handle held once is cut out at its position with the rest kept in order; removing an absent handle changes nothing |
| Registry.AddStep | lib/src/js/yandex_map_controller.js:253-268 | the add operations keep the registry invariant |
| Registry.RemoveStep | lib/src/js/yandex_map_controller.js:276-291 | the remove operations keep the registry invariant |
| Registry.UpdateStep | lib/src/js/yandex_map_controller.js:299-310 | the update operations keep the registry invariant |
| Registry.ViewStep | lib/src/js/yandex_map_controller.js:59-70 | the view operations keep the registry invariant |
| Registry.Changed | lib/src/js/yandex_map_controller.js:299-346 | a geometry update replaces the coordinates; a properties or options update merges key by key with the new values winning and leaves the other two attributes as they were |
| Controller.Window.View | lib/src/js/yandex_map_controller.js:59-70 | the shared body of the view operations performs `ViewStep` in place and keeps the invariant |
| Controller.Window.MoveTo | lib/src/js/yandex_map_controller.js:59-70 | `moveTo` centres on `[lat, lon]` with the zoom given and the duration or, when it is falsy, 300 ms, or rejects when the map is missing |
| Controller.Window.SetZoom | lib/src/js/yandex_map_controller.js:79-90 | `setZoom` sets the zoom with the duration or, when it is falsy, 300 ms, or rejects when the map is missing |
| Controller.Window.ZoomIn | lib/src/js/yandex_map_controller.js:98-109 | `zoomIn` sets the zoom to the current zoom plus one |
| Controller.Window.ZoomOut | lib/src/js/yandex_map_controller.js:117-128 | `zoomOut` sets the zoom to the current zoom minus one |
| Controller.Window.GetZoom | lib/src/js/yandex_map_controller.js:135-145 | resolves with the registered map's zoom iff the map is registered, otherwise rejects with "Map not initialized." (TypeError with no maps table) |
| Controller.Window.GetCenter | lib/src/js/yandex_map_controller.js:152-162 | resolves with the registered map's centre iff the map is registered, otherwise rejects likewise |
| Controller.Window.FitBounds | lib/src/js/yandex_map_controller.js:174-185 | `fitBounds` asks for the bounds `[[swLat, swLon], [neLat, neLon]]` with the duration or, when it is falsy, 300 ms |
| Controller.Window.EnableScrollZoom | lib/src/js/yandex_map_controller.js:193-204 | sets the `scrollZoom` behaviour to `enabled` |
| Controller.Window.EnableDrag | lib/src/js/yandex_map_controller.js:212-223 | sets the `drag` behaviour to `enabled` |
| Controller.Window.SetMapType | lib/src/js/yandex_map_controller.js:231-242 | sets the map type to `"yandex#" + type` |
| Controller.Window.Add | lib/src/js/yandex_map_controller.js:253-268 | the shared body of the add operations performs `AddStep` in place: map check, duplicate check, create, attach, register |
| Controller.Window.Remove | lib/src/js/yandex_map_controller.js:276-291 | the shared body of the remove operations performs `RemoveStep` in place: map check, lookup, detach, delete |
| Controller.Window.Update | lib/src/js/yandex_map_controller.js:299-310 | the shared body of the update operations performs `UpdateStep` in place: lookup, change the one object |
| Controller.Window.AddPlacemark | lib/src/js/yandex_map_controller.js:253-268 | `addPlacemark` performs `AddStep` for a point placemark |
| Controller.Window.RemovePlacemark | lib/src/js/yandex_map_controller.js:276-291 | `removePlacemark` performs `RemoveStep` for placemarks |
| Controller.Window.UpdatePlacemarkGeometry | lib/src/js/yandex_map_controller.js:299-310 | replaces the placemark's point |
| Controller.Window.UpdatePlacemarkProperties | lib/src/js/yandex_map_controller.js:318-329 | merges into the placemark's properties |
| Controller.Window.UpdatePlacemarkOptions | lib/src/js/yandex_map_controller.js:337-348 | merges into the placemark's options |
| Controller.Window.AddPolygon | lib/src/js/yandex_map_controller.js:359-374 | `addPolygon` performs `AddStep` for polygon rings, rejecting a missing map with "Map not initialized yet." |
| Controller.Window.RemovePolygon | lib/src/js/yandex_map_controller.js:382-397 | `removePolygon` performs `RemoveStep` for polygons |
| Controller.Window.UpdatePolygonGeometry | lib/src/js/yandex_map_controller.js:405-416 | replaces the polygon's rings |
| Controller.Window.UpdatePolygonProperties | lib/src/js/yandex_map_controller.js:424-435 | merges into the polygon's properties |
| Controller.Window.UpdatePolygonOptions | lib/src/js/yandex_map_controller.js:443-454 | merges into the polygon's options |
| Controller.Window.AddPolyline | lib/src/js/yandex_map_controller.js:465-480 | `addPolyline` performs `AddStep` for a polyline path |
| Controller.Window.RemovePolyline | lib/src/js/yandex_map_controller.js:488-503 | `removePolyline` performs `RemoveStep` for polylines |
| Controller.Window.UpdatePolylineGeometry | lib/src/js/yandex_map_controller.js:511-522 | replaces the polyline's path |
| Controller.Window.UpdatePolylineProperties | lib/src/js/yandex_map_controller.js:530-541 | merges into the polyline's properties |
| Controller.Window.UpdatePolylineOptions | lib/src/js/yandex_map_controller.js:549-560 | merges into the polyline's options |
| RegistryLemmas.AddNeedsMap | lib/src/js/yandex_map_controller.js:362-363 | an add on an unregistered map rejects with its kind's message ("Map not initialized yet." for polygons) and changes nothing |
| RegistryLemmas.RemoveNeedsMap | lib/src/js/yandex_map_controller.js:279-280 | a remove on an unregistered map rejects with "Map not initialized." and changes nothing, even when the object exists |
| RegistryLemmas.ViewNeedsMap | lib/src/js/yandex_map_controller.js:62-63 | every view operation and query on an unregistered map rejects with "Map not initialized." and changes nothing |
| RegistryLemmas.NoMapsTableIsTypeError | lib/src/js/yandex_map_controller.js:4-6 | the controller never creates the maps table, so without it every map-bound operation rejects with a TypeError |
| RegistryLemmas.AddRejectsDuplicate | lib/src/js/yandex_map_controller.js:258 | an id already in its table rejects with "<Kind> already exists" and changes nothing |
| RegistryLemmas.RemoveRejectsMissing | lib/src/js/yandex_map_controller.js:281-282 | an id not in its table rejects with "<Kind> not found" and changes nothing |
| RegistryLemmas.UpdateRejectsMissing | lib/src/js/yandex_map_controller.js:302-303 | an update of an unknown id rejects with "<Kind> not found" (TypeError without a table) and changes nothing |
| RegistryLemmas.AddInsertsOne | lib/src/js/yandex_map_controller.js:260-262 | a successful add creates one object under a fresh handle, binds the id to it, appends it to that map's collection and changes nothing else |
| RegistryLemmas.RemoveDeletesOne | lib/src/js/yandex_map_controller.js:284-285 | a successful remove unbinds the id and sets the passed map's collection to `Detach` of the old one: the object cut out at its position, the rest in order, nothing changed if it was not there; other tables, other maps and the objects stay |
| RegistryLemmas.RemoveViaOtherMapOrphans | lib/src/js/yandex_map_controller.js:279-285 | removing through another map succeeds and forgets the id while the object stays in the collection it was added to |
| RegistryLemmas.UpdateTouchesOne | lib/src/js/yandex_map_controller.js:321-323 | an update changes the named attribute of the one bound object and nothing else |
| RegistryLemmas.UpdateIgnoresMaps | lib/src/js/yandex_map_controller.js:302-304 | updates give the same result whatever the maps table holds |
| RegistryLemmas.ViewKeepsObjects | lib/src/js/yandex_map_controller.js:59-70 | a view operation changes only its own map, and never its collection or any table |
| RegistryLemmas.AddTwice | lib/src/js/yandex_map_controller.js:258-262 | add, then add the same id: success, then "<Kind> already exists" with the first object kept |
| RegistryLemmas.RemoveTwice | lib/src/js/yandex_map_controller.js:281-285 | remove, then remove the same id: success, then "<Kind> not found" |
| RegistryLemmas.UpdateAfterRemove | lib/src/js/yandex_map_controller.js:302-303 | an update after the id's removal rejects with "<Kind> not found" |
| RegistryLemmas.DetachLast | lib/src/js/yandex_map_controller.js:284 | detaching a just-appended handle gives the collection back |
| RegistryLemmas.RemoveLastAdded | lib/src/js/yandex_map_controller.js:281-285 | removing the id of the object a collection ends with gives back the collection without it and the table without the id |
| RegistryLemmas.AddThenRemove | lib/src/js/yandex_map_controller.js:253-291 | add then remove through the same map restores every table and every map |
| RegistryLemmas.SetZoomThenGetZoom | lib/src/js/yandex_map_controller.js:79-145 | `getZoom` after `setZoom(z)` resolves with `z` |
| RegistryLemmas.ZoomInThenOut | lib/src/js/yandex_map_controller.js:98-128 | `zoomIn` and `zoomOut` move by one level each and undo each other |
| RegistryLemmas.MoveToThenGetCenter | lib/src/js/yandex_map_controller.js:59-162 | `getCenter` after `moveTo(lat, lon, zoom)` resolves with `[lat, lon]`, and the zoom is `zoom` |
| RegistryLemmas.AnimatedDuration | lib/src/js/yandex_map_controller.js:64 | every animated view operation hands the SDK the duration or, when it is falsy, 300 ms |
| RegistryLemmas.MapTypeNamespaced | lib/src/js/yandex_map_controller.js:236 | the SDK map type is the prefix `yandex#` followed by exactly the type passed |
| RegistryLemmas.BehaviorToggles | lib/src/js/yandex_map_controller.js:198-217 | `enableScrollZoom` and `enableDrag` set their own flag and leave the other alone |
| MapInit.Built | lib/src/js/yandex_map_init.js:46 | a seed's missing properties or options become empty bags |
| MapInit.SeedOneOk | lib/src/js/yandex_map_init.js:45-50 | one seeding iteration keeps the registry invariant |
| MapInit.SeedAllOk | lib/src/js/yandex_map_init.js:45-66 | a whole seeding loop keeps the registry invariant |
| MapInit.Ready | lib/src/js/yandex_map_init.js:34-70 | the ready callback keeps the registry invariant |
| MapInit.SeedAllKeepsMaps | lib/src/js/yandex_map_init.js:44-66 | seeding never touches the maps table |
| MapInit.SeedAllFacts | lib/src/js/yandex_map_init.js:45-50 | a seeding loop creates one object per seed in order, attaches each, creates the table iff there was a seed, and leaves the other tables, the maps and older objects alone |
| MapInit.SeedOneTable | lib/src/js/yandex_map_init.js:48-49 | one iteration binds the seed's id to the new object |
| MapInit.SeedTableKeys | lib/src/js/yandex_map_init.js:45-50 | after a loop the table's ids are the old ids plus the seed ids |
| MapInit.SeedTableLastWins | lib/src/js/yandex_map_init.js:49 | a repeated seed id ends bound to the object of its last seed |
| MapInit.SeedTableKeepsOthers | lib/src/js/yandex_map_init.js:45-50 | ids that no seed carries keep their object |
| MapInit.InitYandexMap | lib/src/js/yandex_map_init.js:34-70 | the callback run in place on `window` performs `Ready` and keeps the invariant |
| MapInit.AttachSeeds | lib/src/js/yandex_map_init.js:45-50 | one `forEach` loop performs `SeedAll` in place |
| MapInitProps.SeedStages | lib/src/js/yandex_map_init.js:44-66 | the three loops create one object per seed, placemarks then polygons then polylines, each built from its seed |
| MapInitProps.ReadySkipsRegistered | lib/src/js/yandex_map_init.js:39 | a registered map id makes the callback change nothing |
| MapInitProps.ReadyRegisters | lib/src/js/yandex_map_init.js:36-69 | afterwards the map id is registered and every previously registered map is unchanged |
| MapInitProps.ReadyIdempotent | lib/src/js/yandex_map_init.js:36-39 | running the callback twice is running it once |
| MapInitProps.ReadyAttachesEverySeed | lib/src/js/yandex_map_init.js:42-69 | a new map is registered with exactly as many fresh objects as there are seeds in seed order, each built from its seed, older objects untouched |
| MapInitProps.ReadySeedsTable | lib/src/js/yandex_map_init.js:45-66 | each kind's table exists afterwards iff it existed or had seeds, holds the old and the seed ids, binds each seed id to its last seed's object, keeps all other ids |
| Geocoding.ToResult | lib/src/js/yandex_map_controller.js:575-581 | latitude is the SDK's second coordinate, longitude its first; name and description pass through |
| Geocoding.FromResult | lib/src/js/yandex_map_controller.js:575-581 | puts `[lon, lat]` back in the SDK's order |
| Geocoding.ResultRoundTrip | lib/src/js/yandex_map_controller.js:575-581 | the result mapping and its inverse undo each other |
| Geocoding.ParseFound | lib/src/js/yandex_map_controller.js:572-582 | one result per SDK member, in the SDK's order |
| Geocoding.ParseFoundInvertible | lib/src/js/yandex_map_controller.js:572-582 | the SDK members are recovered from the results |
| Geocoding.ParseSuggestions | lib/src/js/yandex_map_controller.js:605-610 | one suggestion per SDK entry, in order, with its display name and value |
| Geocoding.Geocode | lib/src/js/yandex_map_controller.js:568-592 | a rejection is passed on unchanged; an answer is mapped member by member |
| Geocoding.Suggest | lib/src/js/yandex_map_controller.js:601-619 | a rejection is passed on unchanged; an answer is mapped entry by entry |
| Geocoding.GeocodeThenMoveTo | lib/src/js/yandex_map_controller.js:574-581 | moving to a geocoded `lat, lon` centres the map on the SDK point with its coordinates swapped |

## Left out

- Waiting for the map container (`document.getElementById` polled every 100 ms through `setTimeout`) and the scheduling of `ymaps.ready`: the model runs the ready callback directly once the container exists.
- Promise wrapping and `async`: each operation returns the value its promise settles with.
- `console.error` logging in `geocode` and `suggest`.
- The request and options `geocode` and `suggest` forward to the SDK: the SDK's answer, or its rejection, is a parameter.
- Exceptions the SDK itself throws (a malformed geometry passed to a constructor): the model's SDK never throws.
- MapInit.Ready: `initYandexMap` gives `placemarks`, `polygons` and `polylines` no default (yandex_map_init.js:22), so a missing list makes its `forEach` (lines 45, 53, 61) throw inside the ready callback; the callback then stops with the earlier loops' objects created and their tables written, and the map created but never registered (line 69 is skipped). The model takes the three lists as sequences and does not model that partial run.
- RegistryLemmas.SetZoomThenGetZoom, RegistryLemmas.ZoomInThenOut and RegistryLemmas.MoveToThenGetCenter rely on `Registry.Viewed` applying an animated change at once. `moveTo`, `setZoom`, `zoomIn` and `zoomOut` resolve right after starting an animation of the duration or 300 ms (yandex_map_controller.js:64-65, 84-85, 103-104, 122-123), and only `fitBounds` waits for the SDK (180); a `getZoom`, `getCenter` or `zoomIn` (which reads `map.getZoom()`, 103) issued while an animation runs may see an intermediate or the old value in the SDK, which the model does not capture.
- Exposing the result classes on `window` for the host runtime.
- Registry.Changed: `properties.set` and `options.set` are modelled as a key-by-key merge with the new values winning; the SDK's own semantics are not part of this model.
- Registry.Detach: removing an object that is not in the collection is modelled as a no-op, which is how the SDK collection is assumed to behave.
- Controller.Window.FitBounds: records the requested bounds only; the centre and zoom the SDK picks to fit them, and a rejection of the SDK's `setBounds` promise, are not modelled.
- Values.AnimationDuration: a duration that is `NaN` (also falsy in JavaScript) is not representable; durations are integers.
- Coordinates and zoom levels are integers, not floating-point numbers, and the SDK's clamping of zoom to the range the map type supports is not modelled.
- Of the map `state` argument only centre, zoom and type are tracked, and an omitted `state` is not modelled.
- JavaScript truthiness of keys inherited from `Object.prototype` (an id such as `"toString"` looks registered in a fresh `{}`): tables hold only their own keys.
- Concurrency: the page is single-threaded; interleavings of pending promises are not modelled.
