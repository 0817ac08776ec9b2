/** The feed merger: one dataset merger after the other registers what became of each entity. */
module FeedMergers {
  import opened Wrappers
  import opened Ids
  import opened SameId
  import opened Calendars
  import opened Zones
  import opened Feeds
  import opened FeedMerges
  import opened MergeSteps
  import opened Sequences
  import opened ServicePeriods
  import opened CalendarMerges

  /** How many entities of a table were merged, and how many old and new ones were not. */
  datatype Counts = Counts(merged: nat, notMergedA: nat, notMergedB: nat)

  /** The service periods of a feed, as the objects whose calendars its table has. */
  ghost predicate PeriodsOf(f: LoadedFeed, ps: seq<ServicePeriod>)
    reads ps
  {
    |ps| == |f.services.keys| && forall i :: 0 <= i < |ps| ==> ps[i].Value() == f.services.rows[f.services.keys[i]]
  }

  ghost predicate HaveRanges(f: Feed) {
    forall id :: id in f.services.rows ==> HasRange(f.services.rows[id])
  }

  /** No date range of an old service meets that of a new one. */
  ghost predicate CalendarsApart(a: Feed, b: Feed) {
    forall id, id' :: id in a.services.rows && id' in b.services.rows ==> AlwaysApart(a.services.rows[id], b.services.rows[id'])
  }

  lemma PeriodsApart(a: LoadedFeed, b: LoadedFeed, olds: seq<ServicePeriod>, news: seq<ServicePeriod>)
    requires PeriodsOf(a, olds) && PeriodsOf(b, news)
    ensures CalendarsApart(a, b) <==> forall p, q :: p in olds && q in news ==> AlwaysApart(p.Value(), q.Value())
  {
    PeriodOfId(a, olds);
    PeriodOfId(b, news);
  }

  lemma PeriodOfId(f: LoadedFeed, ps: seq<ServicePeriod>)
    requires PeriodsOf(f, ps)
    ensures forall p :: p in ps ==> exists id :: id in f.services.rows && f.services.rows[id] == p.Value()
    ensures forall id :: id in f.services.rows ==> exists p :: p in ps && p.Value() == f.services.rows[id]
  {
    forall i | 0 <= i < |ps|
      ensures f.services.keys[i] in f.services.rows
    {
      assert f.services.keys[i] in f.services.keys;
    }
    forall id | id in f.services.rows
      ensures exists p :: p in ps && p.Value() == f.services.rows[id]
    {
      var i :| 0 <= i < |f.services.keys| && f.services.keys[i] == id;
      assert ps[i] in ps;
    }
  }

  class FeedMerger {
    const settings: Settings
    const aFeed: LoadedFeed
    const bFeed: LoadedFeed
    var idnum: nat
    var aZoneMap: ZoneMap
    var bZoneMap: ZoneMap

    constructor (settings: Settings, aFeed: LoadedFeed, bFeed: LoadedFeed)
      ensures this.settings == settings && this.aFeed == aFeed && this.bFeed == bFeed
      ensures idnum == FirstId(aFeed, bFeed) && aZoneMap == map[] && bZoneMap == map[]
    {
      this.settings, this.aFeed, this.bFeed := settings, aFeed, bFeed;
      var m := FindLargestIdPostfixNumber(aFeed);
      var n := FindLargestIdPostfixNumber(bFeed);
      idnum := Max(m, n);
      aZoneMap, bZoneMap := map[], map[];
    }

    method GenerateId(entityId: string) returns (id: string)
      modifies `idnum
      ensures idnum == old(idnum) + 1 && id == GeneratedId(entityId, idnum)
      ensures PostfixNumber(id) == idnum && (if entityId == "" then "merged_" else entityId + "_merged_") <= id
    {
      idnum := idnum + 1;
      id := GeneratedId(entityId, idnum);
      GeneratedPostfix(entityId, idnum);
    }

    /** The id that an entity of its own is given: a fresh one if the other feed uses its own. */
    method IdOf(id: string, others: seq<string>) returns (out: string)
      modifies `idnum
      ensures idnum == old(idnum) + if id in SetOf(others) then 1 else 0
      ensures out == CarriedId(id, SetOf(others), idnum)
    {
      out := id;
      if id in others {
        out := GenerateId(id);
      }
    }

    /**
     The stage of a table: the registrations in order, the merge maps they leave, and the migrated entities under
     their ids; and how many entities were merged, and how many old and new ones were not.
     */
    method MergeSameId<E>(a: seq<string>, b: seq<string>, ok: set<string>, migrate: Entry --> E, ghost rows: map<string, E>)
      returns (stage: Stage<E>, counts: Counts)
      requires Distinct(a) && Distinct(b) && Bounded(a, idnum) && Bounded(b, idnum)
      requires AreRows(Plan(a, b, ok, idnum), migrate, rows)
      modifies `idnum
      ensures stage == Stage(MapIds(a, b, ok, old(idnum)), rows) && idnum == stage.ids.n
      ensures counts.merged == |Merged(a, b, ok)|
      ensures counts.merged + counts.notMergedA == |a| && counts.merged + counts.notMergedB == |b|
    {
      var plan;
      plan, counts := MakePlan(a, b, ok);
      StageIs(a, b, ok, old(idnum), migrate, rows);
      stage := RegisterAll(plan, migrate);
    }

    method MakePlan(a: seq<string>, b: seq<string>, ok: set<string>) returns (plan: seq<Entry>, counts: Counts)
      requires Distinct(a) && Distinct(b)
      modifies `idnum
      ensures plan == Plan(a, b, ok, old(idnum)) && idnum == NextId(a, b, ok, old(idnum))
      ensures counts.merged == |Merged(a, b, ok)|
      ensures counts.merged + counts.notMergedA == |a| && counts.merged + counts.notMergedB == |b|
    {
      var merged, aNotMerged, bNotMerged := SortOut(a, b, ok);
      ghost var n := idnum;
      CountsAre(a, b, ok);
      counts := Counts(|merged|, |aNotMerged|, |bNotMerged|);
      var boths := Boths(merged);
      var olds := Migrate(true, aNotMerged, b);
      var news := Migrate(false, bNotMerged, a);
      plan := boths + olds + news;
    }

    /** One entity after the other is carried over from one feed. */
    method Migrate(fromA: bool, ids: seq<string>, others: seq<string>) returns (part: seq<Entry>)
      modifies `idnum
      ensures part == Carry(fromA, ids, SetOf(others), old(idnum))
      ensures idnum == old(idnum) + Used(ids, SetOf(others))
    {
      hide Used, CarriedId;
      TakeNone(ids);
      UsedNone(SetOf(others));
      part := [];
      ghost var all := Carry(fromA, ids, SetOf(others), old(idnum));
      for i := 0 to |ids|
        invariant part == all[..i]
        invariant idnum == old(idnum) + Used(ids[..i], SetOf(others))
      {
        UsedSnoc(ids[..i + 1], SetOf(others));
        TakeTake(ids, i, i + 1);
        TakeMore(all, i);
        var out := IdOf(ids[i], others);
        part := part + [if fromA then OnlyOld(ids[i], out) else OnlyNew(ids[i], out)];
      }
      TakeAll(ids);
      TakeAll(all);
    }

    /** The first two loops, over the two tables. */
    method SortOut(a: seq<string>, b: seq<string>, ok: set<string>)
      returns (merged: seq<string>, aNotMerged: seq<string>, bNotMerged: seq<string>)
      ensures merged == Merged(a, b, ok) && aNotMerged == NotMergedA(a, b, ok) && bNotMerged == NotMergedB(a, b, ok)
    {
      hide Filter;
      merged, aNotMerged, bNotMerged := [], [], [];
      ghost var both := SetOf(b) * ok;
      FilterNone(both, true);
      FilterNone(both, false);
      FilterNone(SetOf(b), true);
      FilterNone(SetOf(a), false);
      TakeNone(a);
      TakeNone(b);
      for i := 0 to |a|
        invariant merged == Filter(a[..i], both, true)
        invariant aNotMerged == Filter(a[..i], both, false)
        invariant bNotMerged == Filter(aNotMerged, SetOf(b), true)
      {
        FilterStep(a, both, true, i);
        FilterStep(a, both, false, i);
        FilterSnoc(aNotMerged, a[i], SetOf(b), true);
        if a[i] !in b {
          aNotMerged := aNotMerged + [a[i]];
        } else if a[i] in ok {
          merged := merged + [a[i]];
        } else {
          aNotMerged := aNotMerged + [a[i]];
          bNotMerged := bNotMerged + [a[i]];
        }
      }
      TakeAll(a);
      ghost var first := bNotMerged;
      for i := 0 to |b|
        invariant bNotMerged == first + Filter(b[..i], SetOf(a), false)
      {
        FilterStep(b, SetOf(a), false, i);
        if b[i] !in a {
          bNotMerged := bNotMerged + [b[i]];
        }
      }
      TakeAll(b);
    }

    /** Each registration enters the merge maps, and the migrated entity the merged table. */
    method RegisterAll<E>(plan: seq<Entry>, migrate: Entry --> E) returns (stage: Stage<E>)
      requires Migrates(plan, migrate)
      ensures stage == Stage(Mapping(plan, idnum, OldMapOf(plan), NewMapOf(plan)), AddRows(map[], plan, migrate))
    {
      var old', new', rows := map[], map[], map[];
      for i := 0 to |plan|
        invariant old' == OldMapOf(plan[..i]) && new' == NewMapOf(plan[..i])
        invariant Migrates(plan[..i], migrate) && rows == AddRows(map[], plan[..i], migrate)
      {
        var e := plan[i];
        TakeTake(plan, i, i + 1);
        AddRowsStep(map[], plan, migrate, i);
        if !e.OnlyNew? {
          old' := old'[e.id := OutId(e)];
        }
        if !e.OnlyOld? {
          new' := new'[e.id := OutId(e)];
        }
        rows := rows[OutId(e) := migrate(e)];
      }
      TakeAll(plan);
      stage := Stage(Mapping(plan, idnum, old', new'), rows);
    }

    // ---------- stops ----------

    /** Stops are copied, then their zones and parent stations are settled. */
    method MergeStops() returns (stage: Stage<Stop>)
      requires AllBounded(aFeed, idnum) && AllBounded(bFeed, idnum)
      requires aZoneMap == map[] && bZoneMap == map[]
      modifies this
      ensures stage == FeedMerges.MergeStops(settings, aFeed, bFeed, old(idnum))
      ensures BothZones(aZoneMap, bZoneMap, idnum) == StopZones(settings, aFeed, bFeed, stage.ids.n)
    {
      ghost var n := idnum;
      var ids, k, l := CopyStops();
      ghost var z := StopZones(settings, aFeed, bFeed, ids.n);
      PartsOfStops(settings, aFeed, bFeed, n, ids, k, l);
      SettledRows(settings, aFeed, bFeed, n, ids, k, l);
      var rows := SettleStops(ids, k, l, z, StopOfEntry(aFeed, bFeed, ids, z));
      stage := Stage(ids, rows);
    }

    method CopyStops() returns (ids: Mapping, k: nat, l: nat)
      requires AllBounded(aFeed, idnum) && AllBounded(bFeed, idnum)
      modifies `idnum
      ensures ids == StopMapping(settings, aFeed, bFeed, old(idnum)) && idnum == ids.n
      ensures StopPartsAre(settings, aFeed, bFeed, old(idnum), ids.plan, k, l)
    {
      ghost var n := idnum;
      var copied, counts := MergeCopies(aFeed.stops, bFeed.stops, StopIds(settings, aFeed, bFeed));
      ids, k, l := copied.ids, counts.merged, counts.merged + counts.notMergedA;
      CountsAre(aFeed.stops.keys, bFeed.stops.keys, StopIds(settings, aFeed, bFeed));
      StopPartsOf(settings, aFeed, bFeed, n);
    }

    /** The merged stops come first in the plan, then the other old ones, then the other new ones. */
    method SettleStops(ids: Mapping, k: nat, l: nat, ghost z: BothZones, ghost stopOf: Entry --> Stop)
      returns (rows: map<string, Stop>)
      requires PartsSettle(aFeed.stops, bFeed.stops, ids, k, l, z, stopOf)
      requires aZoneMap == map[] && bZoneMap == map[] && idnum == ids.n
      modifies this
      ensures BothZones(aZoneMap, bZoneMap, idnum) == z
      ensures Migrates(ids.plan[..k], stopOf) && Migrates(ids.plan[k..l], stopOf) && Migrates(ids.plan[l..], stopOf)
      ensures rows == AddRows(AddRows(AddRows(map[], ids.plan[..k], stopOf), ids.plan[k..l], stopOf), ids.plan[l..], stopOf)
    {
      rows := KeepMergedZones(ids.plan[..k], ids.new', stopOf);
      aZoneMap, rows := UpdateAndMigrateUnmerged(aFeed.stops, ids.plan[k..l], aZoneMap, ids.old', rows, stopOf);
      bZoneMap, rows := UpdateAndMigrateUnmerged(bFeed.stops, ids.plan[l..], bZoneMap, ids.new', rows, stopOf);
    }

    /** The zones of merged stops are preserved, and their parent stations are those of the new stops. */
    method KeepMergedZones(boths: seq<Entry>, mergeMap: map<string, string>, ghost stopOf: Entry --> Stop)
      returns (rows: map<string, Stop>)
      requires aZoneMap == map[] && bZoneMap == map[]
      requires AllSettleMerged(aFeed.stops, bFeed.stops, mergeMap, stopOf, boths)
      modifies `aZoneMap, `bZoneMap
      ensures aZoneMap == bZoneMap == KeepZones(PartZones(aFeed.stops, boths))
      ensures rows == AddRows(map[], boths, stopOf)
    {
      rows := map[];
      ghost var all := PartZones(aFeed.stops, boths);
      for i := 0 to |boths|
        invariant aZoneMap == bZoneMap == KeepZones(all[..i])
        invariant Migrates(boths[..i], stopOf) && rows == AddRows(map[], boths[..i], stopOf)
      {
        assert boths[i] in boths;
        var stop := KeepMergedZone(boths[i], mergeMap, stopOf);
        AddRowsStep(map[], boths, stopOf, i);
        rows := rows[OutId(boths[i]) := stop];
        KeepZonesMore(all, i);
      }
      TakeAll(boths);
      TakeAll(all);
    }

    method KeepMergedZone(e: Entry, mergeMap: map<string, string>, ghost stopOf: Entry --> Stop) returns (stop: Stop)
      requires SettlesMerged(aFeed.stops, bFeed.stops, mergeMap, stopOf, e)
      modifies `aZoneMap, `bZoneMap
      ensures var z := aFeed.stops.rows[e.id].zone; aZoneMap == old(aZoneMap)[z := z] && bZoneMap == old(bZoneMap)[z := z]
      ensures stop == stopOf(e)
    {
      var a, b := aFeed.stops.rows[e.id], bFeed.stops.rows[e.id];
      aZoneMap, bZoneMap := aZoneMap[a.zone := a.zone], bZoneMap[b.zone := b.zone];
      stop := b.(zone := a.zone);
      if stop.parent != "" {
        stop := stop.(parent := mergeMap[b.parent]);
      }
    }

    /** The zones of unmerged stops are mapped, to a fresh id the first time; their parent stations are looked up. */
    method UpdateAndMigrateUnmerged(stops: Dict<Stop>, part: seq<Entry>, zones: ZoneMap, mergeMap: map<string, string>,
                                    before: map<string, Stop>, ghost stopOf: Entry --> Stop)
      returns (zoneMap: ZoneMap, rows: map<string, Stop>)
      requires forall e :: e in part ==> e.id in stops.rows
      requires AllSettleUnmerged(stops, AssignZones(zones, PartZones(stops, part), idnum).zones, mergeMap, stopOf, part)
      modifies `idnum
      ensures Zoned(zoneMap, idnum) == AssignZones(zones, PartZones(stops, part), old(idnum))
      ensures rows == AddRows(before, part, stopOf)
    {
      zoneMap, rows := zones, before;
      ghost var all, n := PartZones(stops, part), idnum;
      for i := 0 to |part|
        invariant Zoned(zoneMap, idnum) == AssignZones(zones, all[..i], n)
        invariant Migrates(part[..i], stopOf) && rows == AddRows(before, part[..i], stopOf)
      {
        assert part[i] in part;
        AssignStep(zones, all, n, i);
        AssignStays(zones, all, n, i + 1);
        var stop;
        zoneMap, stop := UpdateUnmerged(stops, part[i], zoneMap, mergeMap, AssignZones(zones, all, n).zones, stopOf);
        AddRowsStep(before, part, stopOf, i);
        rows := rows[OutId(part[i]) := stop];
      }
      TakeAll(all);
      TakeAll(part);
    }

    method UpdateUnmerged(stops: Dict<Stop>, e: Entry, zones: ZoneMap, mergeMap: map<string, string>,
                          ghost final: ZoneMap, ghost stopOf: Entry --> Stop)
      returns (zoneMap: ZoneMap, stop: Stop)
      requires SettlesUnmerged(stops, final, mergeMap, stopOf, e)
      requires var z := stops.rows[e.id].zone;
               var r := AssignZone(Zoned(zones, idnum), z);
               z in r.zones && final[z] == r.zones[z]
      modifies `idnum
      ensures Zoned(zoneMap, idnum) == AssignZone(Zoned(zones, old(idnum)), stops.rows[e.id].zone)
      ensures stop == stopOf(e)
    {
      zoneMap, stop := zones, stops.rows[e.id];
      if stop.zone !in zoneMap {
        var zone := GenerateId(stop.zone);
        zoneMap := zoneMap[stop.zone := zone];
      }
      stop := stop.(zone := zoneMap[stop.zone]);
      if stop.parent != "" {
        stop := stop.(parent := mergeMap[stop.parent]);
      }
    }

    // ---------- the other tables ----------

    /** Entities that are only copied. */
    method MergeCopies<E>(a: Dict<E>, b: Dict<E>, ok: set<string>) returns (stage: Stage<E>, counts: Counts)
      requires DictOk(a) && DictOk(b) && Bounded(a.keys, idnum) && Bounded(b.keys, idnum)
      modifies `idnum
      ensures SourcesOk(a, b, MapIds(a.keys, b.keys, ok, old(idnum)).plan)
      ensures var ids := MapIds(a.keys, b.keys, ok, old(idnum)); stage == Stage(ids, Copies(a, b, ids.plan)) && idnum == ids.n
      ensures counts.merged == |Merged(a.keys, b.keys, ok)|
      ensures counts.merged + counts.notMergedA == |a.keys| && counts.merged + counts.notMergedB == |b.keys|
    {
      var copy := (e: Entry) requires (e.OnlyNew? || e.id in a.rows) && (e.OnlyOld? || e.id in b.rows) => Source(a, b, e);
      ghost var plan := Plan(a.keys, b.keys, ok, idnum);
      PlanSources(a, b, ok, idnum);
      CopyRows(a, b, plan, copy);
      stage, counts := MergeSameId(a.keys, b.keys, ok, copy, Copies(a, b, plan));
    }

    method MergeAgencies() returns (stage: Stage<Agency>)
      requires AllBounded(aFeed, idnum) && AllBounded(bFeed, idnum)
      modifies `idnum
      ensures stage == FeedMerges.MergeAgencies(aFeed, bFeed, old(idnum)) && idnum == stage.ids.n
    {
      var merged, counts := MergeCopies(aFeed.agencies, bFeed.agencies, AgencyIds(aFeed, bFeed));
      stage := merged;
    }

    method MergeRoutes(agencies: Mapping) returns (stage: Stage<Route>)
      requires AllBounded(aFeed, idnum) && AllBounded(bFeed, idnum)
      requires AgencyMapsOk(aFeed, bFeed, agencies.old', agencies.new')
      modifies `idnum
      ensures stage == FeedMerges.MergeRoutes(aFeed, bFeed, agencies.old', agencies.new', old(idnum)) && idnum == stage.ids.n
    {
      var a, b := aFeed, bFeed;
      var migrate := (e: Entry) requires (e.OnlyNew? || e.id in a.routes.rows) && (e.OnlyOld? || e.id in b.routes.rows) =>
        RouteOf(a, b, e, agencies.old', agencies.new');
      ghost var expected := FeedMerges.MergeRoutes(a, b, agencies.old', agencies.new', idnum);
      PlanSources(a.routes, b.routes, RouteIds(a, b, agencies.old', agencies.new'), idnum);
      RouteRows(a, b, expected.ids.plan, agencies.old', agencies.new', migrate);
      var merged, counts := MergeSameId(a.routes.keys, b.routes.keys, RouteIds(a, b, agencies.old', agencies.new'),
                                        migrate, expected.rows);
      stage := merged;
    }

    method MergeServices() returns (stage: Stage<Calendar>)
      requires AllBounded(aFeed, idnum) && AllBounded(bFeed, idnum)
      modifies `idnum
      ensures stage == FeedMerges.MergeServices(aFeed, bFeed, old(idnum)) && idnum == stage.ids.n
    {
      var merged, counts := MergeCopies(aFeed.services, bFeed.services, {});
      stage := merged;
    }

    method MergeFares() returns (stage: Stage<Fare>)
      requires AllBounded(aFeed, idnum) && AllBounded(bFeed, idnum)
      modifies `idnum
      ensures stage == FeedMerges.MergeFares(aFeed, bFeed, old(idnum)) && idnum == stage.ids.n
    {
      var a, b := aFeed.fares, bFeed.fares;
      var migrate := (e: Entry) requires (e.OnlyNew? || e.id in a.rows) && (e.OnlyOld? || e.id in b.rows) =>
        Source(a, b, e).(rules := []);
      ghost var expected := FeedMerges.MergeFares(aFeed, bFeed, idnum);
      PlanSources(a, b, FareIds(aFeed, bFeed), idnum);
      FareRows(aFeed, bFeed, expected.ids.plan, migrate);
      var merged, counts := MergeSameId(a.keys, b.keys, FareIds(aFeed, bFeed), migrate, expected.rows);
      stage := merged;
    }

    method MergeShapes() returns (stage: Stage<Shape>)
      requires AllBounded(aFeed, idnum) && AllBounded(bFeed, idnum)
      modifies `idnum
      ensures stage == FeedMerges.MergeShapes(settings, aFeed, bFeed, old(idnum)) && idnum == stage.ids.n
    {
      var merged, counts := MergeCopies(aFeed.shapes, bFeed.shapes, ShapeIds(settings, aFeed, bFeed));
      stage := merged;
    }

    method MergeTrips(old': Maps, new': Maps) returns (stage: Stage<Trip>)
      requires AllBounded(aFeed, idnum) && AllBounded(bFeed, idnum)
      requires MapsFit(aFeed, bFeed, old', new')
      modifies `idnum
      ensures stage == FeedMerges.MergeTrips(aFeed, bFeed, old', new', old(idnum)) && idnum == stage.ids.n
    {
      var a, b := aFeed, bFeed;
      var migrate := (e: Entry) requires (e.OnlyNew? || e.id in a.trips.rows) && (e.OnlyOld? || e.id in b.trips.rows) && !e.Both? =>
        TripOf(a, b, e, old', new');
      ghost var expected := FeedMerges.MergeTrips(a, b, old', new', idnum);
      MappingSources(a.trips, b.trips, expected.ids, {});
      TripRows(a, b, expected.ids.plan, old', new', migrate);
      var merged, counts := MergeSameId(a.trips.keys, b.trips.keys, {}, migrate, expected.rows);
      stage := merged;
    }

    /** The rules of both feeds are rewritten, each through its own maps, and duplicates dropped. */
    method MergeFareRules(old': Maps, new': Maps) returns (rules: set<MergedRule>)
      requires MapsFit(aFeed, bFeed, old', new')
      requires ZonesCover(aFeed, aZoneMap) && ZonesCover(bFeed, bZoneMap)
      ensures rules == MigratedRules(aFeed, old', aZoneMap) + MigratedRules(bFeed, new', bZoneMap)
    {
      var a := RulesOfFares(aFeed, old', aZoneMap);
      var b := RulesOfFares(bFeed, new', bZoneMap);
      rules := a + b;
    }

    static method RulesOfFares(f: LoadedFeed, m: Maps, z: ZoneMap) returns (rules: set<MergedRule>)
      requires MapsCover(f, m) && ZonesCover(f, z)
      ensures rules == MigratedRules(f, m, z)
    {
      rules := {};
      var keys := f.fares.keys;
      for i := 0 to |keys|
        invariant rules == RulesFrom(f, m, z, SetOf(keys[..i]))
      {
        assert keys[i] in keys && SetOf(keys[..i + 1]) == SetOf(keys[..i]) + {keys[i]};
        var more := RulesOfFare(f, m, z, keys[i]);
        RulesFromStep(f, m, z, SetOf(keys[..i]), keys[i]);
        rules := rules + more;
      }
      assert keys[..|keys|] == keys;
      AllRules(f, m, z);
    }

    static method RulesOfFare(f: LoadedFeed, m: Maps, z: ZoneMap, fare: string) returns (rules: set<MergedRule>)
      requires MapsCover(f, m) && ZonesCover(f, z) && fare in f.fares.rows
      ensures rules == RulesFrom(f, m, z, {fare})
    {
      rules := {};
      var rs := f.fares.rows[fare].rules;
      for i := 0 to |rs|
        invariant rules == set r | r in rs[..i] :: MigratedRule(f, m, z, fare, r)
      {
        assert rs[i] in rs && rs[..i + 1] == rs[..i] + [rs[i]];
        rules := rules + {MigratedRule(f, m, z, fare, rs[i])};
      }
      assert rs[..|rs|] == rs;
    }

    /** The check made before the service periods are merged. */
    method CheckCalendars(olds: seq<ServicePeriod>, news: seq<ServicePeriod>) returns (disjoint: bool)
      requires PeriodsOf(aFeed, olds) && PeriodsOf(bFeed, news)
      requires HaveRanges(aFeed) && HaveRanges(bFeed)
      ensures disjoint <==> CalendarsApart(aFeed, bFeed)
    {
      hide CalendarsApart, AlwaysApart, AllApart, RangesOf, HasRange;
      PeriodOfId(aFeed, olds);
      PeriodOfId(bFeed, news);
      ghost var rs := RangesExist(olds);
      ghost var qs := RangesExist(news);
      disjoint := CheckDisjointCalendars(olds, news, rs, qs);
      AllApartIffAlways(olds, news, rs, qs);
      PeriodsApart(aFeed, bFeed, olds, news);
    }

    method MergeBase() returns (base: Base)
      requires idnum == FirstId(aFeed, bFeed) && aZoneMap == map[] && bZoneMap == map[]
      modifies this
      ensures base == FeedMerges.MergeBase(settings, aFeed, bFeed) && base.zones == BothZones(aZoneMap, bZoneMap, idnum)
    {
      FirstIdBounds(aFeed, bFeed);
      var agencies := MergeAgencies();
      var stops := MergeStops();
      base := Base(agencies, stops, BothZones(aZoneMap, bZoneMap, idnum));
    }

    /** The four mergers in the middle; the service periods are not merged if disjoint calendars are required and they are not. */
    method MergeMiddle(requireDisjointCalendars: bool, olds: seq<ServicePeriod>, news: seq<ServicePeriod>, base: Base)
      returns (middle: Option<Middle>)
      requires BaseFits(aFeed, bFeed, base) && idnum == base.zones.n && PeriodsOf(aFeed, olds) && PeriodsOf(bFeed, news)
      requires requireDisjointCalendars ==> HaveRanges(aFeed) && HaveRanges(bFeed)
      modifies `idnum
      ensures middle == if requireDisjointCalendars && !CalendarsApart(aFeed, bFeed) then None
                        else Some(FeedMerges.MergeMiddle(settings, aFeed, bFeed, base.agencies.ids, base.zones.n))
      ensures middle.Some? ==> idnum == middle.value.shapes.ids.n
    {
      var routes := MergeRoutes(base.agencies.ids);
      if requireDisjointCalendars {
        var disjoint := CheckCalendars(olds, news);
        if !disjoint {
          return None;
        }
      }
      var merged := MergeAfterRoutes(base.agencies.ids, routes, base.zones.n);
      middle := Some(merged);
    }

    method MergeAfterRoutes(agencies: Mapping, routes: Stage<Route>, ghost n: nat) returns (middle: Middle)
      requires AllBounded(aFeed, n) && AllBounded(bFeed, n) && AgencyMapsOk(aFeed, bFeed, agencies.old', agencies.new')
      requires routes == FeedMerges.MergeRoutes(aFeed, bFeed, agencies.old', agencies.new', n) && idnum == routes.ids.n
      modifies `idnum
      ensures middle == FeedMerges.MergeMiddle(settings, aFeed, bFeed, agencies, n) && idnum == middle.shapes.ids.n
    {
      var services := MergeServices();
      var fares := MergeFares();
      var shapes := MergeShapes();
      middle := Middle(routes, services, fares, shapes);
    }

    method MergeLast(base: Base, middle: Middle) returns (r: Merge)
      requires BaseFits(aFeed, bFeed, base) && MiddleFits(aFeed, bFeed, middle)
      requires idnum == middle.shapes.ids.n && aZoneMap == base.zones.a && bZoneMap == base.zones.b
      modifies `idnum
      ensures r == FeedMerges.MergeLast(aFeed, bFeed, base, middle)
    {
      TablesFit(aFeed, bFeed, base, middle);
      var old', new' := OldMaps(base, middle), NewMaps(base, middle);
      var trips := MergeTrips(old', new');
      var rules := MergeFareRules(old', new');
      r := Merge(base, middle, trips, rules, old', new');
    }

    method MergeRest(requireDisjointCalendars: bool, olds: seq<ServicePeriod>, news: seq<ServicePeriod>, base: Base) returns (r: Option<Merge>)
      requires BaseFits(aFeed, bFeed, base) && base.zones == BothZones(aZoneMap, bZoneMap, idnum)
      requires PeriodsOf(aFeed, olds) && PeriodsOf(bFeed, news)
      requires requireDisjointCalendars ==> HaveRanges(aFeed) && HaveRanges(bFeed)
      modifies `idnum
      ensures r == if requireDisjointCalendars && !CalendarsApart(aFeed, bFeed) then None
                   else Some(FeedMerges.MergeRest(settings, aFeed, bFeed, base))
    {
      hide FeedMerges.MergeMiddle, FeedMerges.MergeLast;
      var middle := MergeMiddle(requireDisjointCalendars, olds, news, base);
      if middle.None? {
        return None;
      }
      var merge := MergeLast(base, middle.value);
      r := Some(merge);
    }

    /**
     All mergers in order.  If disjoint calendars are required and those of the feeds are not, the merge stops at the
     service periods; otherwise it yields the merge of the two feeds.
     */
    method MergeSchedules(requireDisjointCalendars: bool, olds: seq<ServicePeriod>, news: seq<ServicePeriod>) returns (r: Option<Merge>)
      requires idnum == FirstId(aFeed, bFeed) && aZoneMap == map[] && bZoneMap == map[]
      requires PeriodsOf(aFeed, olds) && PeriodsOf(bFeed, news)
      requires requireDisjointCalendars ==> HaveRanges(aFeed) && HaveRanges(bFeed)
      modifies this
      ensures r == if requireDisjointCalendars && !CalendarsApart(aFeed, bFeed) then None else Some(MergeFeeds(settings, aFeed, bFeed))
    {
      hide FeedMerges.MergeBase;
      var base := MergeBase();
      r := MergeRest(requireDisjointCalendars, olds, news, base);
    }
  }
}
