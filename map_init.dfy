/** `initYandexMap`: the body of the `ymaps.ready` callback. It creates the
    maps table if needed, skips a map id that is already registered, creates
    the map, attaches one new SDK object per seed (placemarks, then polygons,
    then polylines, each list in order), writes each into its kind's table
    without any existence check, and registers the map last. */
module MapInit {
  import opened Values
  import opened Registry
  import opened Controller

  /** One entry of a seed list: `{id, geometry, properties?, options?}`. */
  datatype Seed = Seed(id: string, geometry: Geometry, properties: Option<Bag>, options: Option<Bag>)

  /** `new ymaps.<Kind>(s.geometry, s.properties || {}, s.options || {})`. */
  function Built(k: Kind, s: Seed): (shape: Shape)
    ensures shape.kind == k && shape.geometry == s.geometry
    ensures s.properties.None? ==> shape.properties == map[]
    ensures s.properties.Some? ==> shape.properties == s.properties.value
    ensures s.options.None? ==> shape.options == map[]
    ensures s.options.Some? ==> shape.options == s.options.value
  {
    Shape(k, s.geometry, s.properties.GetOr(map[]), s.options.GetOr(map[]))
  }

  /** `new ymaps.Map(mapId, state, options)`: a map with an empty collection. */
  function NewMap(mapId: string, state: MapState, options: Bag): MapInstance {
    MapInstance(mapId, state.center, state.zoom, state.mapType, None, map[], None, options, [])
  }

  /** The registry while seeds are being attached, together with the
      collection of the map under construction (not yet registered). */
  datatype Seeding = Seeding(world: World, attached: seq<Handle>)

  predicate SeedingOk(s: Seeding) {
    Wellformed(s.world) && Attached(s.attached, s.world.shapes)
  }

  /** One iteration of a `forEach` seeding loop. */
  function SeedOne(s: Seeding, k: Kind, seed: Seed): Seeding {
    var h := s.world.nextHandle;
    var created := s.world.(shapes := s.world.shapes[h := Built(k, seed)], nextHandle := h + 1);
    var table := s.world.TableOf(k).GetOr(map[]);
    Seeding(created.WithTable(k, Some(table[seed.id := h])), s.attached + [h])
  }

  /** A whole `forEach` seeding loop over `seeds`, in order. */
  function SeedAll(s: Seeding, k: Kind, seeds: seq<Seed>): Seeding
    decreases |seeds|
  {
    if seeds == [] then s
    else SeedOne(SeedAll(s, k, seeds[..|seeds| - 1]), k, seeds[|seeds| - 1])
  }

  /** A seeding step keeps the registry invariant and attaches only live objects. */
  lemma SeedOneOk(s: Seeding, k: Kind, seed: Seed)
    requires SeedingOk(s)
    ensures SeedingOk(SeedOne(s, k, seed))
  {
  }

  lemma {:induction false} SeedAllOk(s: Seeding, k: Kind, seeds: seq<Seed>)
    requires SeedingOk(s)
    ensures SeedingOk(SeedAll(s, k, seeds))
    decreases |seeds|
  {
    if seeds != [] {
      SeedAllOk(s, k, seeds[..|seeds| - 1]);
      SeedOneOk(SeedAll(s, k, seeds[..|seeds| - 1]), k, seeds[|seeds| - 1]);
    }
  }

  /** The whole ready callback. */
  function Ready(w: World, mapId: string, state: MapState, options: Bag,
                 placemarks: seq<Seed>, polygons: seq<Seed>, polylines: seq<Seed>): (r: World)
    requires Wellformed(w)
    ensures Wellformed(r)
  {
    var maps := w.yandexMaps.GetOr(map[]);
    var w0 := w.(yandexMaps := Some(maps));
    if mapId in maps then w0
    else
      var s1 := SeedAll(Seeding(w0, []), Placemark, placemarks);
      var s2 := SeedAll(s1, Polygon, polygons);
      var s3 := SeedAll(s2, Polyline, polylines);
      assert SeedingOk(s3) && s3.world.yandexMaps == Some(maps) by {
        SeedAllOk(Seeding(w0, []), Placemark, placemarks);
        SeedAllOk(s1, Polygon, polygons);
        SeedAllOk(s2, Polyline, polylines);
        SeedAllKeepsMaps(Seeding(w0, []), s1, s2, placemarks, polygons, polylines);
      }
      s3.world.(yandexMaps := Some(maps[mapId := NewMap(mapId, state, options).(geoObjects := s3.attached)]))
  }

  lemma SeedAllKeepsMaps(s0: Seeding, s1: Seeding, s2: Seeding, pms: seq<Seed>, pgs: seq<Seed>, pls: seq<Seed>)
    requires SeedingOk(s0)
    requires s1 == SeedAll(s0, Placemark, pms) && s2 == SeedAll(s1, Polygon, pgs)
    ensures SeedAll(s2, Polyline, pls).world.yandexMaps == s0.world.yandexMaps
  {
    SeedAllOk(s0, Placemark, pms);
    SeedAllOk(s1, Polygon, pgs);
    SeedAllFacts(s0, Placemark, pms);
    SeedAllFacts(s1, Polygon, pgs);
    SeedAllFacts(s2, Polyline, pls);
  }

  /** The handles `first, first + 1, ..., first + n - 1`, in order. */
  function Span(first: nat, n: nat): (r: seq<Handle>)
    ensures |r| == n && forall i :: 0 <= i < n ==> r[i] == first + i
  {
    seq(n, i => first + i)
  }

  /** What one seeding loop does to everything but its own table: `|seeds|`
      fresh handles, in list order, appended to the collection and added to
      the SDK objects; no other table, no map and no older object changes. */
  lemma {:induction false} SeedAllFacts(s: Seeding, k: Kind, seeds: seq<Seed>)
    requires HandlesBelow(s.world)
    ensures var r := SeedAll(s, k, seeds);
      && r.world.nextHandle == s.world.nextHandle + |seeds|
      && r.attached == s.attached + Span(s.world.nextHandle, |seeds|)
      && r.world.yandexMaps == s.world.yandexMaps
      && (forall k' :: k' != k ==> r.world.TableOf(k') == s.world.TableOf(k'))
      && (forall h :: h in s.world.shapes ==> h in r.world.shapes && r.world.shapes[h] == s.world.shapes[h])
      && (forall h: Handle :: s.world.nextHandle <= h < s.world.nextHandle + |seeds| ==>
            h in r.world.shapes && r.world.shapes[h] == Built(k, seeds[h - s.world.nextHandle]))
      && (r.world.TableOf(k).Some? <==> s.world.TableOf(k).Some? || |seeds| > 0)
  {
    if seeds != [] {
      var pre := seeds[..|seeds| - 1];
      SeedAllFacts(s, k, pre);
      var base := s.world.nextHandle;
      var mid := SeedAll(s, k, pre);
      var r := SeedAll(s, k, seeds);
      assert r == SeedOne(mid, k, seeds[|seeds| - 1]);
      assert r.world.shapes == mid.world.shapes[base + |pre| := Built(k, seeds[|seeds| - 1])];
      assert s.attached + Span(base, |seeds|) == s.attached + Span(base, |pre|) + [base + |pre|];
      forall h: Handle | base <= h < base + |seeds|
        ensures h in r.world.shapes && r.world.shapes[h] == Built(k, seeds[h - base])
      {
        if h < base + |pre| {
          assert pre[h - base] == seeds[h - base];
        }
      }
      forall h | h in s.world.shapes
        ensures h in r.world.shapes && r.world.shapes[h] == s.world.shapes[h]
      {
        assert h < base;
      }
    }
  }

  /** One seeding step writes exactly the new handle under the seed's id. */
  lemma SeedOneTable(s: Seeding, k: Kind, seed: Seed)
    ensures SeedOne(s, k, seed).world.TableOf(k).GetOr(map[])
         == s.world.TableOf(k).GetOr(map[])[seed.id := s.world.nextHandle]
  {
  }

  /** No seed after index `i` carries the same id. */
  predicate LastWithId(seeds: seq<Seed>, i: int)
    requires 0 <= i < |seeds|
  {
    forall j :: i < j < |seeds| ==> seeds[j].id != seeds[i].id
  }

  function SeedIds(seeds: seq<Seed>): set<string> {
    set i | 0 <= i < |seeds| :: seeds[i].id
  }

  lemma SeedIdsSnoc(seeds: seq<Seed>)
    requires seeds != []
    ensures SeedIds(seeds) == SeedIds(seeds[..|seeds| - 1]) + {seeds[|seeds| - 1].id}
  {
  }

  /** The table of kind `k` after a seeding loop, an absent one read as empty. */
  function TableAfter(s: Seeding, k: Kind, seeds: seq<Seed>): IdTable {
    SeedAll(s, k, seeds).world.TableOf(k).GetOr(map[])
  }

  lemma {:induction false} SeedAllNext(s: Seeding, k: Kind, seeds: seq<Seed>)
    ensures SeedAll(s, k, seeds).world.nextHandle == s.world.nextHandle + |seeds|
  {
    if seeds != [] {
      SeedAllNext(s, k, seeds[..|seeds| - 1]);
    }
  }

  /** The last seed of a loop is written last, under the last handle. */
  lemma TableAfterSnoc(s: Seeding, k: Kind, seeds: seq<Seed>)
    requires seeds != []
    ensures var n := |seeds| - 1;
      TableAfter(s, k, seeds) == TableAfter(s, k, seeds[..n])[seeds[n].id := s.world.nextHandle + n]
  {
    var n := |seeds| - 1;
    SeedAllNext(s, k, seeds[..n]);
    SeedOneTable(SeedAll(s, k, seeds[..n]), k, seeds[n]);
  }

  /** After a seeding loop its table holds exactly the old ids and the seed ids. */
  lemma {:induction false} SeedTableKeys(s: Seeding, k: Kind, seeds: seq<Seed>)
    ensures TableAfter(s, k, seeds).Keys == s.world.TableOf(k).GetOr(map[]).Keys + SeedIds(seeds)
  {
    if seeds != [] {
      SeedTableKeys(s, k, seeds[..|seeds| - 1]);
      TableAfterSnoc(s, k, seeds);
      SeedIdsSnoc(seeds);
    }
  }

  /** A seeded id is bound to the handle made from the LAST seed carrying it. */
  lemma {:induction false} SeedTableLastWins(s: Seeding, k: Kind, seeds: seq<Seed>)
    ensures forall i :: 0 <= i < |seeds| && LastWithId(seeds, i) ==>
      seeds[i].id in TableAfter(s, k, seeds) && TableAfter(s, k, seeds)[seeds[i].id] == s.world.nextHandle + i
  {
    if seeds != [] {
      var n := |seeds| - 1;
      var pre := seeds[..n];
      SeedTableLastWins(s, k, pre);
      TableAfterSnoc(s, k, seeds);
      forall i | 0 <= i < |seeds| && LastWithId(seeds, i)
        ensures seeds[i].id in TableAfter(s, k, seeds) && TableAfter(s, k, seeds)[seeds[i].id] == s.world.nextHandle + i
      {
        if i < n {
          assert pre[i] == seeds[i];
          assert LastWithId(pre, i);
          assert seeds[n].id != seeds[i].id;
        }
      }
    }
  }

  /** An id no seed carries keeps the handle it had. */
  lemma {:induction false} SeedTableKeepsOthers(s: Seeding, k: Kind, seeds: seq<Seed>)
    ensures forall id :: id in s.world.TableOf(k).GetOr(map[]) && id !in SeedIds(seeds) ==>
      id in TableAfter(s, k, seeds) && TableAfter(s, k, seeds)[id] == s.world.TableOf(k).GetOr(map[])[id]
  {
    if seeds != [] {
      SeedTableKeepsOthers(s, k, seeds[..|seeds| - 1]);
      TableAfterSnoc(s, k, seeds);
      SeedIdsSnoc(seeds);
    }
  }

  /** The ready callback, run directly: `win` plays the role of `window`. */
  method InitYandexMap(win: Window, mapId: string, state: MapState, options: Bag,
                       placemarks: seq<Seed>, polygons: seq<Seed>, polylines: seq<Seed>)
    requires win.Valid()
    modifies win
    ensures win.Valid()
    ensures win.State() == Ready(old(win.State()), mapId, state, options, placemarks, polygons, polylines)
  {
    if win.yandexMaps.None? {
      win.yandexMaps := Some(map[]);
    }
    if mapId in win.yandexMaps.value {
      return;
    }
    ghost var w0 := win.State();
    var created := NewMap(mapId, state, options);
    var attached := AttachSeeds(win, Placemark, placemarks, created.geoObjects);
    ghost var s1 := Seeding(win.State(), attached);
    attached := AttachSeeds(win, Polygon, polygons, attached);
    ghost var s2 := Seeding(win.State(), attached);
    attached := AttachSeeds(win, Polyline, polylines, attached);
    SeedAllKeepsMaps(Seeding(w0, []), s1, s2, placemarks, polygons, polylines);
    // window.yandexMaps[mapId] = map, once every seed is attached
    win.yandexMaps := Some(win.yandexMaps.value[mapId := created.(geoObjects := attached)]);
  }

  /** One `forEach` seeding loop: construct, attach to the map under
      construction, create the table if missing, assign by id. */
  method AttachSeeds(win: Window, k: Kind, seeds: seq<Seed>, attached: seq<Handle>) returns (result: seq<Handle>)
    requires win.Valid() && Attached(attached, win.shapes)
    modifies win
    ensures win.Valid() && Attached(result, win.shapes)
    ensures Seeding(win.State(), result) == SeedAll(Seeding(old(win.State()), attached), k, seeds)
  {
    ghost var start := Seeding(win.State(), attached);
    result := attached;
    var i := 0;
    while i < |seeds|
      invariant 0 <= i <= |seeds|
      invariant Seeding(win.State(), result) == SeedAll(start, k, seeds[..i])
    {
      var seed := seeds[i];
      var h := win.nextHandle;
      win.nextHandle := win.nextHandle + 1;
      win.shapes := win.shapes[h := Built(k, seed)];
      result := result + [h];
      if win.TableOf(k).None? {
        win.SetTable(k, Some(map[]));
      }
      var table := win.TableOf(k).value;
      win.SetTable(k, Some(table[seed.id := h]));
      assert seeds[..i + 1][..i] == seeds[..i];
      i := i + 1;
    }
    assert seeds[..|seeds|] == seeds;
    SeedAllOk(start, k, seeds);
  }
}
