/** What the `ymaps.ready` callback of `initYandexMap` guarantees: it is a
    no-op for a registered map id (so running it twice is running it once),
    it registers the new map with every seed attached in list order, and it
    writes the seed ids into their tables with plain assignment, the last
    seed with a given id winning. */
module MapInitProps {
  import opened Values
  import opened Registry
  import opened MapInit

  /** The seed list of one kind. */
  function SeedsOf(k: Kind, placemarks: seq<Seed>, polygons: seq<Seed>, polylines: seq<Seed>): seq<Seed> {
    match k
    case Placemark => placemarks
    case Polygon => polygons
    case Polyline => polylines
  }

  /** The handle of the first object seeded for kind `k`: placemarks are
      created first, then polygons, then polylines. */
  function FirstHandle(k: Kind, base: nat, placemarks: seq<Seed>, polygons: seq<Seed>): nat {
    match k
    case Placemark => base
    case Polygon => base + |placemarks|
    case Polyline => base + |placemarks| + |polygons|
  }

  function Tagged(k: Kind, seeds: seq<Seed>): (r: seq<(Kind, Seed)>)
    ensures |r| == |seeds| && forall i :: 0 <= i < |seeds| ==> r[i] == (k, seeds[i])
  {
    seq(|seeds|, i requires 0 <= i < |seeds| => (k, seeds[i]))
  }

  /** Every seed with its kind, in the order the callback creates them. */
  function AllSeeds(placemarks: seq<Seed>, polygons: seq<Seed>, polylines: seq<Seed>): seq<(Kind, Seed)> {
    Tagged(Placemark, placemarks) + Tagged(Polygon, polygons) + Tagged(Polyline, polylines)
  }

  /** `after` is `before` with one fresh object per tagged seed attached in
      order, each built from its seed, and every older object left alone. */
  predicate Extends(before: Seeding, after: Seeding, tagged: seq<(Kind, Seed)>) {
    var base := before.world.nextHandle;
    && after.attached == before.attached + Span(base, |tagged|)
    && after.world.nextHandle == base + |tagged|
    && (forall h :: h in before.world.shapes ==> h in after.world.shapes && after.world.shapes[h] == before.world.shapes[h])
    && (forall h: Handle :: base <= h < base + |tagged| ==>
          h in after.world.shapes && after.world.shapes[h] == Built(tagged[h - base].0, tagged[h - base].1))
  }

  lemma StageExtends(s: Seeding, k: Kind, seeds: seq<Seed>)
    requires HandlesBelow(s.world)
    ensures Extends(s, SeedAll(s, k, seeds), Tagged(k, seeds))
  {
    SeedAllFacts(s, k, seeds);
  }

  lemma ExtendsChain(a: Seeding, b: Seeding, c: Seeding, t1: seq<(Kind, Seed)>, t2: seq<(Kind, Seed)>)
    requires Extends(a, b, t1) && Extends(b, c, t2)
    ensures Extends(a, c, t1 + t2)
  {
  }

  /** The three seeding loops run one after the other: one fresh object per
      seed, placemarks then polygons then polylines, each built from its
      seed, every older object left alone. */
  lemma SeedStages(s0: Seeding, placemarks: seq<Seed>, polygons: seq<Seed>, polylines: seq<Seed>)
    requires SeedingOk(s0)
    ensures Extends(s0, SeedAll(SeedAll(SeedAll(s0, Placemark, placemarks), Polygon, polygons), Polyline, polylines),
                    AllSeeds(placemarks, polygons, polylines))
  {
    var s1 := SeedAll(s0, Placemark, placemarks);
    var s2 := SeedAll(s1, Polygon, polygons);
    var s3 := SeedAll(s2, Polyline, polylines);
    SeedAllOk(s0, Placemark, placemarks);
    SeedAllOk(s1, Polygon, polygons);
    StageExtends(s0, Placemark, placemarks);
    StageExtends(s1, Polygon, polygons);
    StageExtends(s2, Polyline, polylines);
    ExtendsChain(s0, s1, s2, Tagged(Placemark, placemarks), Tagged(Polygon, polygons));
    ExtendsChain(s0, s2, s3, Tagged(Placemark, placemarks) + Tagged(Polygon, polygons), Tagged(Polyline, polylines));
  }

  /** A map id that is already registered makes the callback return at once:
      no table, object or collection changes. */
  lemma ReadySkipsRegistered(w: World, mapId: string, state: MapState, options: Bag,
                             placemarks: seq<Seed>, polygons: seq<Seed>, polylines: seq<Seed>)
    requires Wellformed(w) && MapRegistered(w, mapId)
    ensures Ready(w, mapId, state, options, placemarks, polygons, polylines) == w
  {
  }

  /** Whatever the state before, the callback leaves `mapId` registered, and
      every other registered map as it was. */
  lemma ReadyRegisters(w: World, mapId: string, state: MapState, options: Bag,
                       placemarks: seq<Seed>, polygons: seq<Seed>, polylines: seq<Seed>)
    requires Wellformed(w)
    ensures var r := Ready(w, mapId, state, options, placemarks, polygons, polylines);
      && MapRegistered(r, mapId)
      && (forall id :: MapRegistered(w, id) ==> MapRegistered(r, id) && r.yandexMaps.value[id] == w.yandexMaps.value[id])
  {
    var maps := w.yandexMaps.GetOr(map[]);
    if mapId !in maps {
      var w0 := w.(yandexMaps := Some(maps));
      var s1 := SeedAll(Seeding(w0, []), Placemark, placemarks);
      var s2 := SeedAll(s1, Polygon, polygons);
      SeedAllKeepsMaps(Seeding(w0, []), s1, s2, placemarks, polygons, polylines);
    }
  }

  /** Running the callback twice with the same map id is running it once:
      one map is registered and every seed is created and attached once. */
  lemma ReadyIdempotent(w: World, mapId: string, state: MapState, options: Bag,
                        placemarks: seq<Seed>, polygons: seq<Seed>, polylines: seq<Seed>)
    requires Wellformed(w)
    ensures var once := Ready(w, mapId, state, options, placemarks, polygons, polylines);
      Ready(once, mapId, state, options, placemarks, polygons, polylines) == once
  {
    ReadyRegisters(w, mapId, state, options, placemarks, polygons, polylines);
  }

  /** A new map is registered with a collection holding exactly one fresh
      object per seed, placemarks then polygons then polylines, each list in
      order, each object built from its seed; no older object changes. */
  lemma ReadyAttachesEverySeed(w: World, mapId: string, state: MapState, options: Bag,
                               placemarks: seq<Seed>, polygons: seq<Seed>, polylines: seq<Seed>)
    requires Wellformed(w) && !MapRegistered(w, mapId)
    ensures var r := Ready(w, mapId, state, options, placemarks, polygons, polylines);
      var all := AllSeeds(placemarks, polygons, polylines);
      && MapRegistered(r, mapId)
      && r.yandexMaps.value[mapId] == NewMap(mapId, state, options).(geoObjects := Span(w.nextHandle, |all|))
      && |r.yandexMaps.value[mapId].geoObjects| == |placemarks| + |polygons| + |polylines|
      && r.nextHandle == w.nextHandle + |all|
      && (forall h :: h in w.shapes ==> h in r.shapes && r.shapes[h] == w.shapes[h])
      && (forall h: Handle :: w.nextHandle <= h < w.nextHandle + |all| ==>
            h in r.shapes && r.shapes[h] == Built(all[h - w.nextHandle].0, all[h - w.nextHandle].1))
  {
    var maps := w.yandexMaps.GetOr(map[]);
    var s0 := Seeding(w.(yandexMaps := Some(maps)), []);
    var s3 := SeedAll(SeedAll(SeedAll(s0, Placemark, placemarks), Polygon, polygons), Polyline, polylines);
    var r := Ready(w, mapId, state, options, placemarks, polygons, polylines);
    ReadyUnfolds(w, mapId, state, options, placemarks, polygons, polylines);
    SeedStages(s0, placemarks, polygons, polylines);
    ExtendsFromEmpty(w, s0, s3, r, AllSeeds(placemarks, polygons, polylines));
  }

  /** Restating `Extends` from an empty collection for a world that keeps the
      last stage's objects and allocator. */
  lemma ExtendsFromEmpty(w: World, s0: Seeding, s3: Seeding, r: World, all: seq<(Kind, Seed)>)
    requires s0.attached == [] && s0.world.shapes == w.shapes && s0.world.nextHandle == w.nextHandle
    requires Extends(s0, s3, all)
    requires r.shapes == s3.world.shapes && r.nextHandle == s3.world.nextHandle
    ensures s3.attached == Span(w.nextHandle, |all|)
    ensures r.nextHandle == w.nextHandle + |all|
    ensures forall h :: h in w.shapes ==> h in r.shapes && r.shapes[h] == w.shapes[h]
    ensures forall h: Handle :: w.nextHandle <= h < w.nextHandle + |all| ==>
      h in r.shapes && r.shapes[h] == Built(all[h - w.nextHandle].0, all[h - w.nextHandle].1)
  {
  }

  /** For a new map id the callback's world is the last seeding stage's world
      with the map registered under its collection. */
  lemma ReadyUnfolds(w: World, mapId: string, state: MapState, options: Bag,
                     placemarks: seq<Seed>, polygons: seq<Seed>, polylines: seq<Seed>)
    requires Wellformed(w) && !MapRegistered(w, mapId)
    ensures var maps := w.yandexMaps.GetOr(map[]);
      var s3 := SeedAll(SeedAll(SeedAll(Seeding(w.(yandexMaps := Some(maps)), []), Placemark, placemarks), Polygon, polygons), Polyline, polylines);
      Ready(w, mapId, state, options, placemarks, polygons, polylines)
        == s3.world.(yandexMaps := Some(maps[mapId := NewMap(mapId, state, options).(geoObjects := s3.attached)]))
  {
  }

  /** What the callback does to the table of each kind when it registers a
      new map: the table exists afterwards iff it existed or that kind had
      seeds; it holds the old ids and the seed ids; a seed id is bound to the
      object made from the last seed carrying it, overwriting any earlier
      seed or earlier registration; every other id keeps its object. */
  lemma ReadySeedsTable(w: World, mapId: string, state: MapState, options: Bag,
                        placemarks: seq<Seed>, polygons: seq<Seed>, polylines: seq<Seed>, k: Kind)
    requires Wellformed(w) && !MapRegistered(w, mapId)
    ensures var r := Ready(w, mapId, state, options, placemarks, polygons, polylines);
      var seeds := SeedsOf(k, placemarks, polygons, polylines);
      var before := w.TableOf(k).GetOr(map[]);
      var after := r.TableOf(k).GetOr(map[]);
      var first := FirstHandle(k, w.nextHandle, placemarks, polygons);
      && (r.TableOf(k).Some? <==> w.TableOf(k).Some? || |seeds| > 0)
      && after.Keys == before.Keys + SeedIds(seeds)
      && (forall i :: 0 <= i < |seeds| && LastWithId(seeds, i) ==> after[seeds[i].id] == first + i)
      && (forall id :: id in before && id !in SeedIds(seeds) ==> after[id] == before[id])
  {
    var maps := w.yandexMaps.GetOr(map[]);
    var w0 := w.(yandexMaps := Some(maps));
    var s0 := Seeding(w0, []);
    var s1 := SeedAll(s0, Placemark, placemarks);
    var s2 := SeedAll(s1, Polygon, polygons);
    var s3 := SeedAll(s2, Polyline, polylines);
    SeedAllOk(s0, Placemark, placemarks);
    SeedAllOk(s1, Polygon, polygons);
    SeedAllFacts(s0, Placemark, placemarks);
    SeedAllFacts(s1, Polygon, polygons);
    SeedAllFacts(s2, Polyline, polylines);
    var r := Ready(w, mapId, state, options, placemarks, polygons, polylines);
    assert r.TableOf(k) == s3.world.TableOf(k);
    var seeding := match k case Placemark => s0 case Polygon => s1 case Polyline => s2;
    var seeds := SeedsOf(k, placemarks, polygons, polylines);
    assert s3.world.TableOf(k) == SeedAll(seeding, k, seeds).world.TableOf(k);
    assert seeding.world.TableOf(k) == w.TableOf(k);
    assert seeding.world.nextHandle == FirstHandle(k, w.nextHandle, placemarks, polygons);
    SeedAllFacts(seeding, k, seeds);
    SeedTableKeys(seeding, k, seeds);
    SeedTableLastWins(seeding, k, seeds);
    SeedTableKeepsOthers(seeding, k, seeds);
  }
}
