/** The merge of two feeds, table by table, as functions of the two feeds. */
module FeedMerges {
  import opened Wrappers
  import opened Ids
  import opened Sequences
  import opened SameId
  import opened Calendars
  import opened Zones
  import opened Feeds

  /** Distances, their limits and letter case: what the merge takes from elsewhere. */
  datatype Settings = Settings(
    stopDistance: (Stop, Stop) -> real,
    largestStopDistance: real,
    shapeDistance: (Shape, Shape) -> real,
    largestShapeDistance: real,
    lower: string -> string)

  /** The merge of one table: who became what, and the outcomes by id. */
  datatype Stage<E> = Stage(ids: Mapping, rows: map<string, E>)

  /** The row that an outcome starts from as a copy: the new one if there are both. */
  function Source<E>(a: Dict<E>, b: Dict<E>, e: Entry): E
    requires (e.OnlyNew? || e.id in a.rows) && (e.OnlyOld? || e.id in b.rows)
  {
    if e.OnlyOld? then a.rows[e.id] else b.rows[e.id]
  }

  /** Every registration is of entities of these tables, and has an id of its own. */
  ghost predicate SourcesOk<E>(a: Dict<E>, b: Dict<E>, plan: seq<Entry>) {
    && (forall e :: e in plan ==> (e.OnlyNew? || e.id in a.rows) && (e.OnlyOld? || e.id in b.rows))
    && (forall e, f :: e in plan && f in plan && OutId(e) == OutId(f) ==> e == f)
  }

  /** The entities as they are copied. */
  function Copies<E>(a: Dict<E>, b: Dict<E>, plan: seq<Entry>): map<string, E>
    requires SourcesOk(a, b, plan)
  {
    map e | e in plan :: OutId(e) := Source(a, b, e)
  }

  lemma MappingSources<E>(a: Dict<E>, b: Dict<E>, ids: Mapping, ok: set<string>)
    requires DictOk(a) && DictOk(b) && MappingOk(ids, SetOf(a.keys), SetOf(b.keys), ok)
    ensures SourcesOk(a, b, ids.plan) && forall e :: e in ids.plan && e.Both? ==> e.id in ok
  {
  }

  // ---------- agencies ----------

  predicate AgenciesMerge(a: Agency, b: Agency) {
    a.name == b.name && a.url == b.url && a.timezone == b.timezone
  }

  function AgencyIds(a: Feed, b: Feed): set<string> {
    set id | id in a.agencies.rows && id in b.agencies.rows && AgenciesMerge(a.agencies.rows[id], b.agencies.rows[id])
  }

  function MergeAgencies(a: LoadedFeed, b: LoadedFeed, n: nat): (r: Stage<Agency>)
    requires AllBounded(a, n) && AllBounded(b, n)
    ensures MappingOk(r.ids, SetOf(a.agencies.keys), SetOf(b.agencies.keys), AgencyIds(a, b)) && n <= r.ids.n
  {
    var ids := MapIds(a.agencies.keys, b.agencies.keys, AgencyIds(a, b), n);
    MappingSources(a.agencies, b.agencies, ids, AgencyIds(a, b));
    Stage(ids, Copies(a.agencies, b.agencies, ids.plan))
  }

  // ---------- stops and zones ----------

  predicate StopsMerge(st: Settings, a: Stop, b: Stop) {
    && st.stopDistance(a, b) <= st.largestStopDistance
    && st.lower(a.name) == st.lower(b.name) && a.zone == b.zone && a.locationType == b.locationType
  }

  function StopIds(st: Settings, a: Feed, b: Feed): set<string> {
    set id | id in a.stops.rows && id in b.stops.rows && StopsMerge(st, a.stops.rows[id], b.stops.rows[id])
  }

  function StopPlan(st: Settings, a: Feed, b: Feed, n: nat): seq<Entry> {
    Plan(a.stops.keys, b.stops.keys, StopIds(st, a, b), n)
  }

  function ZonesOf(stops: Dict<Stop>, ids: seq<string>): seq<string>
    requires forall id :: id in ids ==> id in stops.rows
  {
    seq(|ids|, i requires 0 <= i < |ids| => stops.rows[ids[i]].zone)
  }

  /** The zones of the merged stops, those of the other old stops and those of the other new ones. */
  function ZonesKept(st: Settings, a: LoadedFeed, b: LoadedFeed): seq<string>
  {
    ZonesOf(a.stops, Merged(a.stops.keys, b.stops.keys, StopIds(st, a, b)))
  }

  function ZonesOnlyOld(st: Settings, a: LoadedFeed, b: LoadedFeed): seq<string>
  {
    ZonesOf(a.stops, NotMergedA(a.stops.keys, b.stops.keys, StopIds(st, a, b)))
  }

  function ZonesOnlyNew(st: Settings, a: LoadedFeed, b: LoadedFeed): seq<string>
  {
    NotMergedBDistinct(a.stops.keys, b.stops.keys, StopIds(st, a, b));
    ZonesOf(b.stops, NotMergedB(a.stops.keys, b.stops.keys, StopIds(st, a, b)))
  }

  function StopZones(st: Settings, a: LoadedFeed, b: LoadedFeed, n: nat): BothZones
  {
    MergeZones(ZonesKept(st, a, b), ZonesOnlyOld(st, a, b), ZonesOnlyNew(st, a, b), n)
  }

  /** Everything an outcome of the stop table needs is there. */
  ghost predicate StopEntryOk(a: Feed, b: Feed, e: Entry, old': map<string, string>, new': map<string, string>, z: BothZones) {
    && (e.OnlyNew? || e.id in a.stops.rows) && (e.OnlyOld? || e.id in b.stops.rows)
    && (!e.OnlyNew? ==> a.stops.rows[e.id].zone in z.a)
    && (e.OnlyNew? ==> b.stops.rows[e.id].zone in z.b)
    && (var s := Source(a.stops, b.stops, e); s.parent == "" || s.parent in if e.OnlyOld? then old' else new')
  }

  function StopOf(a: Feed, b: Feed, e: Entry, old': map<string, string>, new': map<string, string>, z: BothZones): Stop
    requires StopEntryOk(a, b, e, old', new', z)
  {
    var s := Source(a.stops, b.stops, e);
    s.(zone := if e.OnlyNew? then z.b[s.zone] else z.a[a.stops.rows[e.id].zone],
       parent := if s.parent == "" then "" else if e.OnlyOld? then old'[s.parent] else new'[s.parent])
  }

  ghost predicate StopSources(a: Feed, b: Feed, ids: Mapping, z: BothZones) {
    && (forall e :: e in ids.plan ==> StopEntryOk(a, b, e, ids.old', ids.new', z))
    && (forall e, f :: e in ids.plan && f in ids.plan && OutId(e) == OutId(f) ==> e == f)
  }

  function StopOutcomes(a: Feed, b: Feed, ids: Mapping, z: BothZones): map<string, Stop>
    requires StopSources(a, b, ids, z)
  {
    map e | e in ids.plan :: OutId(e) := StopOf(a, b, e, ids.old', ids.new', z)
  }

  lemma ZonesAreCovered(st: Settings, a: LoadedFeed, b: LoadedFeed, n: nat, e: Entry)
    requires AllBounded(a, n) && AllBounded(b, n)
    requires e in StopPlan(st, a, b, n)
    ensures (e.OnlyNew? || e.id in a.stops.rows) && (e.OnlyOld? || e.id in b.stops.rows)
    ensures var z := StopZones(st, a, b, NextId(a.stops.keys, b.stops.keys, StopIds(st, a, b), n));
            (!e.OnlyNew? ==> a.stops.rows[e.id].zone in z.a) && (!e.OnlyOld? ==> b.stops.rows[e.id].zone in z.b)
  {
    var ok := StopIds(st, a, b);
    var ka, kb := a.stops.keys, b.stops.keys;
    PlanIsOk(ka, kb, ok, n);
    NotMergedBDistinct(ka, kb, ok);
    ZoneMapsCover(ZonesKept(st, a, b), ZonesOnlyOld(st, a, b), ZonesOnlyNew(st, a, b), NextId(ka, kb, ok, n));
    if !e.OnlyNew? {
      if e.id in Merged(ka, kb, ok) {
        ZoneIsListed(a.stops, Merged(ka, kb, ok), e.id);
      } else {
        ZoneIsListed(a.stops, NotMergedA(ka, kb, ok), e.id);
      }
    }
    if !e.OnlyOld? {
      if e.id in NotMergedB(ka, kb, ok) {
        ZoneIsListed(b.stops, NotMergedB(ka, kb, ok), e.id);
      } else {
        ZoneIsListed(a.stops, Merged(ka, kb, ok), e.id);
      }
    }
  }

  lemma ZoneIsListed(stops: Dict<Stop>, ids: seq<string>, id: string)
    requires (forall x :: x in ids ==> x in stops.rows) && id in ids
    ensures stops.rows[id].zone in ZonesOf(stops, ids)
  {
    var i :| 0 <= i < |ids| && ids[i] == id;
    assert ZonesOf(stops, ids)[i] == stops.rows[id].zone;
  }

  lemma StopEntriesOk(st: Settings, a: LoadedFeed, b: LoadedFeed, n: nat)
    requires AllBounded(a, n) && AllBounded(b, n)
    ensures var ids := StopMapping(st, a, b, n);
            StopSources(a, b, ids, StopZones(st, a, b, ids.n))
  {
    var ids := StopMapping(st, a, b, n);
    var z := StopZones(st, a, b, ids.n);
    forall e | e in ids.plan
      ensures StopEntryOk(a, b, e, ids.old', ids.new', z)
    {
      ZonesAreCovered(st, a, b, n, e);
      if e.OnlyOld? {
        assert StopRefsOk(a, a.stops.rows[e.id]);
      } else {
        assert StopRefsOk(b, b.stops.rows[e.id]);
      }
    }
  }

  function StopMapping(st: Settings, a: LoadedFeed, b: LoadedFeed, n: nat): Mapping
    requires AllBounded(a, n) && AllBounded(b, n)
  {
    MapIds(a.stops.keys, b.stops.keys, StopIds(st, a, b), n)
  }

  /** The outcomes of the stop table, after all zones and parent stations have been settled. */
  function MergeStops(st: Settings, a: LoadedFeed, b: LoadedFeed, n: nat): (r: Stage<Stop>)
    requires AllBounded(a, n) && AllBounded(b, n)
    ensures MappingOk(r.ids, SetOf(a.stops.keys), SetOf(b.stops.keys), StopIds(st, a, b)) && n <= r.ids.n
  {
    var ids := StopMapping(st, a, b, n);
    var z := StopZones(st, a, b, ids.n);
    StopEntriesOk(st, a, b, n);
    Stage(ids, StopOutcomes(a, b, ids, z))
  }

  // ---------- routes ----------

  /** The agency that a route names, or the only one. */
  function AgencyOf(f: LoadedFeed, r: Route): (id: string)
    requires RouteRefsOk(f, r)
    ensures id in f.agencies.rows && if r.agency != "" then id == r.agency else f.agencies.rows.Keys == {id}
  {
    if r.agency != "" then r.agency
    else
      assert f.agencies.keys[0] in f.agencies.keys;
      f.agencies.keys[0]
  }

  /** _merge_optional: two values that are both given must be the same. */
  predicate OptionalsMerge(a: string, b: string) {
    a == "" || b == "" || a == b
  }

  function MergedOptional(a: string, b: string): string {
    if a == "" then b else a
  }

  /** The agencies' images, and what a route needs to be found there. */
  ghost predicate AgencyMapsOk(a: Feed, b: Feed, old': map<string, string>, new': map<string, string>) {
    (old'.Keys, new'.Keys) == (a.agencies.rows.Keys, b.agencies.rows.Keys)
  }

  predicate RoutesMerge(a: LoadedFeed, b: LoadedFeed, old': map<string, string>, new': map<string, string>, r: Route, q: Route)
    requires RouteRefsOk(a, r) && RouteRefsOk(b, q) && AgencyMapsOk(a, b, old', new')
  {
    && r.shortName == q.shortName && r.longName == q.longName && r.routeType == q.routeType
    && old'[AgencyOf(a, r)] == new'[AgencyOf(b, q)]
    && OptionalsMerge(r.url, q.url) && OptionalsMerge(r.color, q.color) && OptionalsMerge(r.textColor, q.textColor)
  }

  function RouteIds(a: LoadedFeed, b: LoadedFeed, old': map<string, string>, new': map<string, string>): set<string>
    requires AgencyMapsOk(a, b, old', new')
  {
    set id | id in a.routes.rows && id in b.routes.rows && RoutesMerge(a, b, old', new', a.routes.rows[id], b.routes.rows[id])
  }

  function RouteOf(a: LoadedFeed, b: LoadedFeed, e: Entry, old': map<string, string>, new': map<string, string>): Route
    requires AgencyMapsOk(a, b, old', new')
    requires (e.OnlyNew? || e.id in a.routes.rows) && (e.OnlyOld? || e.id in b.routes.rows)
  {
    match e
    case OnlyOld(id, _) => var r := a.routes.rows[id]; r.(agency := old'[AgencyOf(a, r)])
    case OnlyNew(id, _) => var q := b.routes.rows[id]; q.(agency := new'[AgencyOf(b, q)])
    case Both(id) =>
      var r, q := a.routes.rows[id], b.routes.rows[id];
      q.(agency := new'[AgencyOf(b, q)], url := MergedOptional(r.url, q.url),
         color := MergedOptional(r.color, q.color), textColor := MergedOptional(r.textColor, q.textColor))
  }

  function RouteOutcomes(a: LoadedFeed, b: LoadedFeed, plan: seq<Entry>, old': map<string, string>, new': map<string, string>): map<string, Route>
    requires AgencyMapsOk(a, b, old', new') && SourcesOk(a.routes, b.routes, plan)
  {
    map e | e in plan :: OutId(e) := RouteOf(a, b, e, old', new')
  }

  function MergeRoutes(a: LoadedFeed, b: LoadedFeed, old': map<string, string>, new': map<string, string>, n: nat): (r: Stage<Route>)
    requires AllBounded(a, n) && AllBounded(b, n) && AgencyMapsOk(a, b, old', new')
    ensures MappingOk(r.ids, SetOf(a.routes.keys), SetOf(b.routes.keys), RouteIds(a, b, old', new')) && n <= r.ids.n
  {
    var ids := MapIds(a.routes.keys, b.routes.keys, RouteIds(a, b, old', new'), n);
    MappingSources(a.routes, b.routes, ids, RouteIds(a, b, old', new'));
    Stage(ids, RouteOutcomes(a, b, ids.plan, old', new'))
  }

  // ---------- services, fares and shapes ----------

  /** Service periods are never merged. */
  function MergeServices(a: LoadedFeed, b: LoadedFeed, n: nat): (r: Stage<Calendar>)
    requires AllBounded(a, n) && AllBounded(b, n)
    ensures MappingOk(r.ids, SetOf(a.services.keys), SetOf(b.services.keys), {}) && n <= r.ids.n
  {
    var ids := MapIds(a.services.keys, b.services.keys, {}, n);
    MappingSources(a.services, b.services, ids, {});
    Stage(ids, Copies(a.services, b.services, ids.plan))
  }

  predicate FaresMerge(f: Fare, g: Fare) {
    f.(rules := []) == g.(rules := [])
  }

  function FareIds(a: Feed, b: Feed): set<string> {
    set id | id in a.fares.rows && id in b.fares.rows && FaresMerge(a.fares.rows[id], b.fares.rows[id])
  }

  /** The copy of a fare has no rules yet. */
  function FareOutcomes(a: Feed, b: Feed, plan: seq<Entry>): map<string, Fare>
    requires SourcesOk(a.fares, b.fares, plan)
  {
    map e | e in plan :: OutId(e) := Source(a.fares, b.fares, e).(rules := [])
  }

  function MergeFares(a: LoadedFeed, b: LoadedFeed, n: nat): (r: Stage<Fare>)
    requires AllBounded(a, n) && AllBounded(b, n)
    ensures MappingOk(r.ids, SetOf(a.fares.keys), SetOf(b.fares.keys), FareIds(a, b)) && n <= r.ids.n
  {
    var ids := MapIds(a.fares.keys, b.fares.keys, FareIds(a, b), n);
    MappingSources(a.fares, b.fares, ids, FareIds(a, b));
    Stage(ids, FareOutcomes(a, b, ids.plan))
  }

  function ShapeIds(st: Settings, a: Feed, b: Feed): set<string> {
    set id | id in a.shapes.rows && id in b.shapes.rows
             && st.shapeDistance(a.shapes.rows[id], b.shapes.rows[id]) <= st.largestShapeDistance
  }

  function MergeShapes(st: Settings, a: LoadedFeed, b: LoadedFeed, n: nat): (r: Stage<Shape>)
    requires AllBounded(a, n) && AllBounded(b, n)
    ensures MappingOk(r.ids, SetOf(a.shapes.keys), SetOf(b.shapes.keys), ShapeIds(st, a, b)) && n <= r.ids.n
  {
    var ids := MapIds(a.shapes.keys, b.shapes.keys, ShapeIds(st, a, b), n);
    MappingSources(a.shapes, b.shapes, ids, ShapeIds(st, a, b));
    Stage(ids, Copies(a.shapes, b.shapes, ids.plan))
  }

  // ---------- trips ----------

  /** Where one feed's entities went, by table. */
  datatype Maps = Maps(agency: map<string, string>, stop: map<string, string>, route: map<string, string>,
                       service: map<string, string>, fare: map<string, string>, shape: map<string, string>)

  /** The ids of a feed, and those for which the maps have an image. */
  datatype Tables = Tables(agency: set<string>, stop: set<string>, route: set<string>,
                           service: set<string>, fare: set<string>, shape: set<string>)

  function TablesOf(f: Feed): Tables {
    Tables(f.agencies.rows.Keys, f.stops.rows.Keys, f.routes.rows.Keys, f.services.rows.Keys, f.fares.rows.Keys, f.shapes.rows.Keys)
  }

  function MappedTables(m: Maps): Tables {
    Tables(m.agency.Keys, m.stop.Keys, m.route.Keys, m.service.Keys, m.fare.Keys, m.shape.Keys)
  }

  /** The maps have an image for every entity of the feed. */
  ghost predicate MapsCover(f: Feed, m: Maps) {
    MappedTables(m) == TablesOf(f)
  }

  ghost predicate MapsFit(a: Feed, b: Feed, old': Maps, new': Maps) {
    (MappedTables(old'), MappedTables(new')) == (TablesOf(a), TablesOf(b))
  }

  /** The copy of a stop time; whether it is a timepoint is not copied. */
  function MigratedStopTime(m: Maps, s: StopTime): StopTime
    requires s.stop in m.stop
  {
    s.(stop := m.stop[s.stop], timepoint := None)
  }

  /** letter is the name of the feed, 'a' or 'b'; renamed tells whether the trip gets a fresh id. */
  function MigratedTrip(f: Feed, m: Maps, letter: string, id: string, renamed: bool, t: Trip): Trip
    requires MapsCover(f, m) && TripRefsOk(f, t)
  {
    t.(route := m.route[t.route],
       service := m.service[t.service],
       block := if t.block == "" then "" else letter + "_" + t.block,
       shape := if t.shape == "" then "" else m.shape[t.shape],
       stopTimes := seq(|t.stopTimes|, i requires 0 <= i < |t.stopTimes| => MigratedStopTime(m, t.stopTimes[i])),
       originalId := if renamed then id else t.originalId)
  }

  function TripOf(a: LoadedFeed, b: LoadedFeed, e: Entry, old': Maps, new': Maps): Trip
    requires MapsFit(a, b, old', new')
    requires (e.OnlyNew? || e.id in a.trips.rows) && (e.OnlyOld? || e.id in b.trips.rows) && !e.Both?
  {
    if e.OnlyOld? then MigratedTrip(a, old', "a", e.id, e.id in b.trips.rows, a.trips.rows[e.id])
    else MigratedTrip(b, new', "b", e.id, e.id in a.trips.rows, b.trips.rows[e.id])
  }

  function TripOutcomes(a: LoadedFeed, b: LoadedFeed, plan: seq<Entry>, old': Maps, new': Maps): map<string, Trip>
    requires MapsFit(a, b, old', new') && SourcesOk(a.trips, b.trips, plan)
    requires forall e :: e in plan ==> !e.Both?
  {
    map e | e in plan :: OutId(e) := TripOf(a, b, e, old', new')
  }

  /** Trips are never merged. */
  function MergeTrips(a: LoadedFeed, b: LoadedFeed, old': Maps, new': Maps, n: nat): (r: Stage<Trip>)
    requires AllBounded(a, n) && AllBounded(b, n) && MapsFit(a, b, old', new')
    ensures MappingOk(r.ids, SetOf(a.trips.keys), SetOf(b.trips.keys), {}) && n <= r.ids.n
  {
    var ids := MapIds(a.trips.keys, b.trips.keys, {}, n);
    MappingSources(a.trips, b.trips, ids, {});
    Stage(ids, TripOutcomes(a, b, ids.plan, old', new'))
  }

  // ---------- fare rules ----------

  /** A rule of the merged feed, with the fare it belongs to. */
  datatype MergedRule = MergedRule(fare: string, rule: FareRule)

  ghost predicate ZonesCover(f: Feed, z: ZoneMap) {
    forall id :: id in f.stops.rows ==> f.stops.rows[id].zone in z
  }

  function MigratedRule(f: Feed, m: Maps, z: ZoneMap, fare: string, r: FareRule): MergedRule
    requires MapsCover(f, m) && ZonesCover(f, z) && RuleRefsOk(f, r) && fare in f.fares.rows
  {
    MergedRule(m.fare[fare],
               FareRule(if r.route == "" then "" else m.route[r.route],
                        if r.origin == "" then "" else z[r.origin],
                        if r.destination == "" then "" else z[r.destination],
                        if r.contains == "" then "" else z[r.contains]))
  }

  function MigratedRules(f: LoadedFeed, m: Maps, z: ZoneMap): set<MergedRule>
    requires MapsCover(f, m) && ZonesCover(f, z)
  {
    set id, r | id in f.fares.rows && r in f.fares.rows[id].rules :: MigratedRule(f, m, z, id, r)
  }

  // ---------- the whole merge ----------

  function FirstId(a: Feed, b: Feed): nat {
    Max(LargestPostfix(ScannedIds(a)), LargestPostfix(ScannedIds(b)))
  }

  lemma FirstIdBounds(a: Feed, b: Feed)
    ensures AllBounded(a, FirstId(a, b)) && AllBounded(b, FirstId(a, b))
  {
    LargestPostfixBounds(ScannedIds(a));
    LargestPostfixBounds(ScannedIds(b));
    ScannedBounds(a, FirstId(a, b));
    ScannedBounds(b, FirstId(a, b));
  }

  lemma StillBounded(f: Feed, n: nat, m: nat)
    requires AllBounded(f, n) && n <= m
    ensures AllBounded(f, m)
  {
  }

  lemma ZonesCovered(st: Settings, a: LoadedFeed, b: LoadedFeed, n: nat)
    requires AllBounded(a, n) && AllBounded(b, n)
    ensures var z := StopZones(st, a, b, StopMapping(st, a, b, n).n); ZonesCover(a, z.a) && ZonesCover(b, z.b)
  {
    var ids := StopMapping(st, a, b, n);
    forall id | id in a.stops.rows
      ensures a.stops.rows[id].zone in StopZones(st, a, b, ids.n).a
    {
      var e :| e in ids.plan && !e.OnlyNew? && e.id == id;
      ZonesAreCovered(st, a, b, n, e);
    }
    forall id | id in b.stops.rows
      ensures b.stops.rows[id].zone in StopZones(st, a, b, ids.n).b
    {
      var e :| e in ids.plan && !e.OnlyOld? && e.id == id;
      ZonesAreCovered(st, a, b, n, e);
    }
  }

  lemma ZoneCounter(st: Settings, a: LoadedFeed, b: LoadedFeed, n: nat)
    ensures n <= StopZones(st, a, b, n).n
  {
    ZoneMapsCover(ZonesKept(st, a, b), ZonesOnlyOld(st, a, b), ZonesOnlyNew(st, a, b), n);
  }

  /** The first two mergers: agencies and stops, with the zones. */
  datatype Base = Base(agencies: Stage<Agency>, stops: Stage<Stop>, zones: BothZones)

  /** What the other mergers need: agencies, stops and zones have images, and no id ends in a number beyond the counter. */
  ghost predicate BaseFits(a: Feed, b: Feed, base: Base) {
    && AllBounded(a, base.zones.n) && AllBounded(b, base.zones.n)
    && ZonesCover(a, base.zones.a) && ZonesCover(b, base.zones.b)
    && AgencyMapsOk(a, b, base.agencies.ids.old', base.agencies.ids.new')
    && (base.stops.ids.old'.Keys, base.stops.ids.new'.Keys) == (a.stops.rows.Keys, b.stops.rows.Keys)
  }

  function MergeBase(st: Settings, a: LoadedFeed, b: LoadedFeed): (r: Base)
    ensures BaseFits(a, b, r)
  {
    FirstIdBounds(a, b);
    var agencies := MergeAgencies(a, b, FirstId(a, b));
    StillBounded(a, FirstId(a, b), agencies.ids.n);
    StillBounded(b, FirstId(a, b), agencies.ids.n);
    var stops := MergeStops(st, a, b, agencies.ids.n);
    var zones := StopZones(st, a, b, stops.ids.n);
    ZonesCovered(st, a, b, agencies.ids.n);
    ZoneCounter(st, a, b, stops.ids.n);
    StillBounded(a, FirstId(a, b), zones.n);
    StillBounded(b, FirstId(a, b), zones.n);
    Base(agencies, stops, zones)
  }

  /** The next four, none of which looks at another's outcomes except for the routes' agencies. */
  datatype Middle = Middle(routes: Stage<Route>, services: Stage<Calendar>, fares: Stage<Fare>, shapes: Stage<Shape>)

  ghost predicate MiddleFits(a: Feed, b: Feed, m: Middle) {
    && AllBounded(a, m.shapes.ids.n) && AllBounded(b, m.shapes.ids.n)
    && (m.routes.ids.old'.Keys, m.services.ids.old'.Keys, m.fares.ids.old'.Keys, m.shapes.ids.old'.Keys)
       == (a.routes.rows.Keys, a.services.rows.Keys, a.fares.rows.Keys, a.shapes.rows.Keys)
    && (m.routes.ids.new'.Keys, m.services.ids.new'.Keys, m.fares.ids.new'.Keys, m.shapes.ids.new'.Keys)
       == (b.routes.rows.Keys, b.services.rows.Keys, b.fares.rows.Keys, b.shapes.rows.Keys)
  }

  function MergeMiddle(st: Settings, a: LoadedFeed, b: LoadedFeed, agencies: Mapping, n: nat): (r: Middle)
    requires AllBounded(a, n) && AllBounded(b, n) && AgencyMapsOk(a, b, agencies.old', agencies.new')
    ensures MiddleFits(a, b, r)
  {
    var routes := MergeRoutes(a, b, agencies.old', agencies.new', n);
    StillBounded(a, n, routes.ids.n);
    StillBounded(b, n, routes.ids.n);
    var services := MergeServices(a, b, routes.ids.n);
    StillBounded(a, n, services.ids.n);
    StillBounded(b, n, services.ids.n);
    var fares := MergeFares(a, b, services.ids.n);
    StillBounded(a, n, fares.ids.n);
    StillBounded(b, n, fares.ids.n);
    var shapes := MergeShapes(st, a, b, fares.ids.n);
    StillBounded(a, n, shapes.ids.n);
    StillBounded(b, n, shapes.ids.n);
    Middle(routes, services, fares, shapes)
  }

  /** Where the old feed's entities went, and where the new one's. */
  function OldMaps(base: Base, m: Middle): Maps {
    Maps(base.agencies.ids.old', base.stops.ids.old', m.routes.ids.old', m.services.ids.old', m.fares.ids.old', m.shapes.ids.old')
  }

  function NewMaps(base: Base, m: Middle): Maps {
    Maps(base.agencies.ids.new', base.stops.ids.new', m.routes.ids.new', m.services.ids.new', m.fares.ids.new', m.shapes.ids.new')
  }

  datatype Merge = Merge(base: Base, middle: Middle, trips: Stage<Trip>, rules: set<MergedRule>, old': Maps, new': Maps)

  lemma TablesFit(a: Feed, b: Feed, base: Base, middle: Middle)
    requires BaseFits(a, b, base) && MiddleFits(a, b, middle)
    ensures MapsFit(a, b, OldMaps(base, middle), NewMaps(base, middle))
  {
  }

  /** The last two mergers. */
  function MergeLast(a: LoadedFeed, b: LoadedFeed, base: Base, middle: Middle): Merge
    requires BaseFits(a, b, base) && MiddleFits(a, b, middle)
  {
    TablesFit(a, b, base, middle);
    var old', new' := OldMaps(base, middle), NewMaps(base, middle);
    var trips := MergeTrips(a, b, old', new', middle.shapes.ids.n);
    Merge(base, middle, trips, MigratedRules(a, old', base.zones.a) + MigratedRules(b, new', base.zones.b), old', new')
  }

  function MergeRest(st: Settings, a: LoadedFeed, b: LoadedFeed, base: Base): Merge
    requires BaseFits(a, b, base)
  {
    MergeLast(a, b, base, MergeMiddle(st, a, b, base.agencies.ids, base.zones.n))
  }

  /** merge_schedules with the default mergers, once the calendars are known to be disjoint. */
  function MergeFeeds(st: Settings, a: LoadedFeed, b: LoadedFeed): Merge {
    MergeRest(st, a, b, MergeBase(st, a, b))
  }
}
