/**
 The merged feed carries both timetables: every trip, old or new, has one image, which runs on the same dates
 and makes the same stops at the same times, and all its references name the images of what it named before.
 */
module FeedMergeProofs {
  import opened Wrappers
  import opened Ids
  import opened Sequences
  import opened SameId
  import opened Calendars
  import opened Zones
  import opened Feeds
  import opened FeedMerges

  datatype Side = Old | New

  function FeedOf(side: Side, a: LoadedFeed, b: LoadedFeed): LoadedFeed {
    if side == Old then a else b
  }

  function MapOf(side: Side, m: Mapping): map<string, string> {
    if side == Old then m.old' else m.new'
  }

  function MapsOf(side: Side, m: Merge): Maps {
    if side == Old then m.old' else m.new'
  }

  function ZonesOfSide(side: Side, z: BothZones): ZoneMap {
    if side == Old then z.a else z.b
  }

  /** The registration behind an entity's image. */
  lemma Image(m: Mapping, a: set<string>, b: set<string>, ok: set<string>, side: Side, id: string) returns (e: Entry)
    requires MappingOk(m, a, b, ok) && id in if side == Old then a else b
    ensures e in m.plan && e.id == id && MapOf(side, m)[id] == OutId(e)
    ensures if side == Old then !e.OnlyNew? else !e.OnlyOld?
  {
    if side == Old {
      e :| e in m.plan && !e.OnlyNew? && e.id == id;
    } else {
      e :| e in m.plan && !e.OnlyOld? && e.id == id;
    }
  }

  // ---------- table by table ----------

  /** image has the name, the address and the time zone of the agency. */
  ghost predicate AgencyPreserved(agency: Agency, image: Agency) {
    image.name == agency.name && image.url == agency.url && image.timezone == agency.timezone
  }

  lemma AgencyImage(a: LoadedFeed, b: LoadedFeed, n: nat, side: Side, id: string)
    requires AllBounded(a, n) && AllBounded(b, n)
    requires id in FeedOf(side, a, b).agencies.rows
    ensures var s := MergeAgencies(a, b, n);
            var out := MapOf(side, s.ids)[id];
            out in s.rows && AgencyPreserved(FeedOf(side, a, b).agencies.rows[id], s.rows[out])
  {
    var s := MergeAgencies(a, b, n);
    var e := Image(s.ids, SetOf(a.agencies.keys), SetOf(b.agencies.keys), AgencyIds(a, b), side, id);
  }

  /** A service's image has the very same calendar. */
  lemma ServiceImage(a: LoadedFeed, b: LoadedFeed, n: nat, side: Side, id: string)
    requires AllBounded(a, n) && AllBounded(b, n)
    requires id in FeedOf(side, a, b).services.rows
    ensures var s := MergeServices(a, b, n);
            var out := MapOf(side, s.ids)[id];
            out in s.rows && s.rows[out] == FeedOf(side, a, b).services.rows[id]
  {
    var s := MergeServices(a, b, n);
    var e := Image(s.ids, SetOf(a.services.keys), SetOf(b.services.keys), {}, side, id);
  }

  /** The shape itself, or for a merged old one a new shape close enough to it. */
  ghost predicate ShapePreserved(st: Settings, side: Side, shape: Shape, image: Shape) {
    image == shape || (side == Old && st.shapeDistance(shape, image) <= st.largestShapeDistance)
  }

  lemma ShapeImage(st: Settings, a: LoadedFeed, b: LoadedFeed, n: nat, side: Side, id: string)
    requires AllBounded(a, n) && AllBounded(b, n)
    requires id in FeedOf(side, a, b).shapes.rows
    ensures var s := MergeShapes(st, a, b, n);
            var out := MapOf(side, s.ids)[id];
            out in s.rows && ShapePreserved(st, side, FeedOf(side, a, b).shapes.rows[id], s.rows[out])
  {
    var s := MergeShapes(st, a, b, n);
    var e := Image(s.ids, SetOf(a.shapes.keys), SetOf(b.shapes.keys), ShapeIds(st, a, b), side, id);
  }

  /** A route's image has its names and type, its address and colors if they are given, and belongs to the image of its agency. */
  ghost predicate RoutePreserved(agencies: map<string, string>, f: LoadedFeed, r: Route, image: Route)
    requires RouteRefsOk(f, r)
  {
    && image.shortName == r.shortName && image.longName == r.longName && image.routeType == r.routeType
    && (r.url != "" ==> image.url == r.url) && (r.color != "" ==> image.color == r.color)
    && (r.textColor != "" ==> image.textColor == r.textColor)
    && AgencyOf(f, r) in agencies && image.agency == agencies[AgencyOf(f, r)]
  }

  lemma RouteImage(a: LoadedFeed, b: LoadedFeed, agencies: Mapping, n: nat, side: Side, id: string)
    requires AllBounded(a, n) && AllBounded(b, n) && AgencyMapsOk(a, b, agencies.old', agencies.new')
    requires id in FeedOf(side, a, b).routes.rows
    ensures var s := MergeRoutes(a, b, agencies.old', agencies.new', n);
            var out := MapOf(side, s.ids)[id];
            out in s.rows && RoutePreserved(MapOf(side, agencies), FeedOf(side, a, b), FeedOf(side, a, b).routes.rows[id], s.rows[out])
  {
    hide RouteOf, RoutePreserved, RoutesMerge, OutId;
    var s := MergeRoutes(a, b, agencies.old', agencies.new', n);
    var ok := RouteIds(a, b, agencies.old', agencies.new');
    var e := Image(s.ids, SetOf(a.routes.keys), SetOf(b.routes.keys), ok, side, id);
    MappingSources(a.routes, b.routes, s.ids, ok);
    RouteOfPreserved(a, b, e, agencies.old', agencies.new', side);
  }

  lemma RouteOfPreserved(a: LoadedFeed, b: LoadedFeed, e: Entry, old': map<string, string>, new': map<string, string>, side: Side)
    requires AgencyMapsOk(a, b, old', new')
    requires (e.OnlyNew? || e.id in a.routes.rows) && (e.OnlyOld? || e.id in b.routes.rows)
    requires e.Both? ==> RoutesMerge(a, b, old', new', a.routes.rows[e.id], b.routes.rows[e.id])
    requires if side == Old then !e.OnlyNew? else !e.OnlyOld?
    ensures RoutePreserved(if side == Old then old' else new', FeedOf(side, a, b), FeedOf(side, a, b).routes.rows[e.id], RouteOf(a, b, e, old', new'))
  {
    hide AgencyOf;
  }

  /** image is one row of the merged table for both, or a copy of the stop. */
  ghost predicate SamePlace(st: Settings, b: Feed, side: Side, id: string, stop: Stop, image: Stop) {
    || (image.name == stop.name && image.lat == stop.lat && image.lon == stop.lon)
    || (side == Old && id in b.stops.rows && st.stopDistance(stop, b.stops.rows[id]) <= st.largestStopDistance
        && image.name == b.stops.rows[id].name && image.lat == b.stops.rows[id].lat && image.lon == b.stops.rows[id].lon)
  }

  /** image names the image of the parent station that stop names. */
  ghost predicate ParentImage(m: map<string, string>, stop: Stop, image: Stop) {
    if stop.parent == "" then image.parent == "" else stop.parent in m && image.parent == m[stop.parent]
  }

  /**
   A stop's image has its name but for case, its type, the zone that its zone maps to, and stands near it.  Its
   parent station is the image of its own one; for a merged old stop, that of its new counterpart's.
   */
  ghost predicate StopPreserved(st: Settings, b: Feed, ids: Mapping, z: BothZones, side: Side, id: string, stop: Stop, image: Stop) {
    && st.lower(image.name) == st.lower(stop.name) && image.locationType == stop.locationType
    && stop.zone in ZonesOfSide(side, z) && image.zone == ZonesOfSide(side, z)[stop.zone]
    && SamePlace(st, b, side, id, stop, image)
    && (if side == Old && Both(id) in ids.plan then id in b.stops.rows && ParentImage(ids.new', b.stops.rows[id], image)
        else ParentImage(MapOf(side, ids), stop, image))
  }

  lemma StopImage(st: Settings, a: LoadedFeed, b: LoadedFeed, n: nat, side: Side, id: string)
    requires AllBounded(a, n) && AllBounded(b, n)
    requires id in FeedOf(side, a, b).stops.rows
    ensures var s := MergeStops(st, a, b, n);
            var out := MapOf(side, s.ids)[id];
            out in s.rows && StopPreserved(st, b, s.ids, StopZones(st, a, b, s.ids.n), side, id, FeedOf(side, a, b).stops.rows[id], s.rows[out])
  {
    var s := MergeStops(st, a, b, n);
    var z := StopZones(st, a, b, s.ids.n);
    var e := Image(s.ids, SetOf(a.stops.keys), SetOf(b.stops.keys), StopIds(st, a, b), side, id);
    StopEntriesOk(st, a, b, n);
    ZonesAreCovered(st, a, b, n, e);
    if e.Both? {
      BothZoneKept(st, a, b, n, id);
      ZoneMapsCover(ZonesKept(st, a, b), ZonesOnlyOld(st, a, b), ZonesOnlyNew(st, a, b), s.ids.n);
    }
    StopOfPreserved(st, a, b, s.ids, z, e, side);
  }

  lemma StopOfPreserved(st: Settings, a: LoadedFeed, b: LoadedFeed, ids: Mapping, z: BothZones, e: Entry, side: Side)
    requires StopEntryOk(a, b, e, ids.old', ids.new', z) && e in ids.plan
    requires if side == Old then !e.OnlyNew? else !e.OnlyOld?
    requires FeedOf(side, a, b).stops.rows[e.id].zone in ZonesOfSide(side, z)
    requires forall x :: x in ids.plan && !e.OnlyNew? && !x.OnlyNew? && x.id == e.id ==> x == e
    requires e.Both? ==>
               var zone := a.stops.rows[e.id].zone;
               StopsMerge(st, a.stops.rows[e.id], b.stops.rows[e.id]) && zone in z.b && z.b[zone] == z.a[zone]
    ensures StopPreserved(st, b, ids, z, side, e.id, FeedOf(side, a, b).stops.rows[e.id], StopOf(a, b, e, ids.old', ids.new', z))
  {
  }

  /** The zone of two merged stops is kept in both feeds' maps. */
  lemma BothZoneKept(st: Settings, a: LoadedFeed, b: LoadedFeed, n: nat, id: string)
    requires AllBounded(a, n) && AllBounded(b, n)
    requires Both(id) in StopMapping(st, a, b, n).plan
    ensures id in a.stops.rows && a.stops.rows[id].zone in ZonesKept(st, a, b)
  {
    var ok := StopIds(st, a, b);
    var ka, kb := a.stops.keys, b.stops.keys;
    InPart(Plan(ka, kb, ok, n), Both(id), BothPart(ka, kb, ok), OldPart(ka, kb, ok, n), NewPart(ka, kb, ok, n));
    BothPartIs(ka, kb, ok, Both(id));
    ZoneIsListed(a.stops, Merged(ka, kb, ok), id);
  }

  // ---------- trips ----------

  /** image is at the image of the stop, at the same times and with the same attributes, but never tells whether it is a timepoint. */
  ghost predicate StopTimePreserved(m: Maps, s: StopTime, image: StopTime) {
    && s.stop in m.stop && image.stop == m.stop[s.stop]
    && image.arrival == s.arrival && image.departure == s.departure
    && image.headsign == s.headsign && image.pickup == s.pickup && image.dropOff == s.dropOff && image.distance == s.distance
    && image.timepoint == None
  }

  /** image visits the images of the stops of t in order at the same times, and refers to the images of what t refers to. */
  ghost predicate TripPreserved(m: Maps, side: Side, t: Trip, image: Trip) {
    && t.route in m.route && image.route == m.route[t.route]
    && t.service in m.service && image.service == m.service[t.service]
    && (if t.shape == "" then image.shape == "" else t.shape in m.shape && image.shape == m.shape[t.shape])
    && |image.stopTimes| == |t.stopTimes|
    && (forall i :: 0 <= i < |t.stopTimes| ==> StopTimePreserved(m, t.stopTimes[i], image.stopTimes[i]))
    && image.frequencies == t.frequencies && image.rest == t.rest
    && (if t.block == "" then image.block == "" else image.block == (if side == Old then "a_" else "b_") + t.block)
  }

  /** A trip whose id both feeds have gets a fresh one, and remembers its own. */
  ghost predicate NamesOriginal(a: Feed, b: Feed, id: string, t: Trip, image: Trip) {
    image.originalId == if id in a.trips.rows && id in b.trips.rows then id else t.originalId
  }

  lemma MigratedTripPreserved(f: Feed, m: Maps, side: Side, id: string, renamed: bool, t: Trip)
    requires MapsCover(f, m) && TripRefsOk(f, t)
    ensures TripPreserved(m, side, t, MigratedTrip(f, m, if side == Old then "a" else "b", id, renamed, t))
    ensures MigratedTrip(f, m, if side == Old then "a" else "b", id, renamed, t).originalId == if renamed then id else t.originalId
  {
    assert "a" + "_" == "a_" && "b" + "_" == "b_";
  }

  lemma TripImage(a: LoadedFeed, b: LoadedFeed, old': Maps, new': Maps, n: nat, side: Side, id: string)
    requires AllBounded(a, n) && AllBounded(b, n) && MapsFit(a, b, old', new')
    requires id in FeedOf(side, a, b).trips.rows
    ensures var s := MergeTrips(a, b, old', new', n);
            var out := MapOf(side, s.ids)[id];
            && out in s.rows
            && TripPreserved(if side == Old then old' else new', side, FeedOf(side, a, b).trips.rows[id], s.rows[out])
            && NamesOriginal(a, b, id, FeedOf(side, a, b).trips.rows[id], s.rows[out])
  {
    hide TripPreserved, MigratedTrip;
    var s := MergeTrips(a, b, old', new', n);
    var e := Image(s.ids, SetOf(a.trips.keys), SetOf(b.trips.keys), {}, side, id);
    if side == Old {
      MigratedTripPreserved(a, old', side, id, id in b.trips.rows, a.trips.rows[id]);
    } else {
      MigratedTripPreserved(b, new', side, id, id in a.trips.rows, b.trips.rows[id]);
    }
  }

  /** A stop time is carried over whole, but for the name of its stop, exactly if nothing was said about a timepoint. */
  lemma WholeIffNoTimepoint(m: Maps, s: StopTime, image: StopTime)
    requires StopTimePreserved(m, s, image)
    ensures image == s.(stop := m.stop[s.stop]) <==> s.timepoint == None
  {
  }

  // ---------- what the references of a trip name ----------

  ghost predicate ServiceKept(f: Feed, m: Merge, id: string, out: string) {
    id in f.services.rows && out in m.middle.services.rows && m.middle.services.rows[out] == f.services.rows[id]
  }

  ghost predicate AgencyKept(f: Feed, m: Merge, id: string, out: string) {
    id in f.agencies.rows && out in m.base.agencies.rows && AgencyPreserved(f.agencies.rows[id], m.base.agencies.rows[out])
  }

  ghost predicate RouteKept(f: LoadedFeed, m: Merge, side: Side, id: string, out: string) {
    && id in f.routes.rows && out in m.middle.routes.rows
    && RoutePreserved(MapsOf(side, m).agency, f, f.routes.rows[id], m.middle.routes.rows[out])
    && AgencyKept(f, m, AgencyOf(f, f.routes.rows[id]), m.middle.routes.rows[out].agency)
  }

  ghost predicate ShapeKept(st: Settings, f: Feed, m: Merge, side: Side, id: string, out: string) {
    id in f.shapes.rows && out in m.middle.shapes.rows && ShapePreserved(st, side, f.shapes.rows[id], m.middle.shapes.rows[out])
  }

  ghost predicate StopKept(st: Settings, a: LoadedFeed, b: LoadedFeed, m: Merge, side: Side, id: string, out: string) {
    var f := FeedOf(side, a, b);
    && id in f.stops.rows && out in m.base.stops.rows
    && StopPreserved(st, b, m.base.stops.ids, m.base.zones, side, id, f.stops.rows[id], m.base.stops.rows[out])
  }

  /** What image refers to is in the merged feed, and is there what t refers to: its service runs on exactly the same dates. */
  ghost predicate RefsCarried(st: Settings, a: LoadedFeed, b: LoadedFeed, m: Merge, side: Side, t: Trip, image: Trip) {
    var f := FeedOf(side, a, b);
    && ServiceKept(f, m, t.service, image.service)
    && RouteKept(f, m, side, t.route, image.route)
    && (t.shape == "" || ShapeKept(st, f, m, side, t.shape, image.shape))
    && |image.stopTimes| == |t.stopTimes|
    && forall i :: 0 <= i < |t.stopTimes| ==> StopKept(st, a, b, m, side, t.stopTimes[i].stop, image.stopTimes[i].stop)
  }

  /** The trip of one of the feeds with this id has an image that preserves it. */
  ghost predicate Carried(st: Settings, a: LoadedFeed, b: LoadedFeed, m: Merge, side: Side, id: string)
    requires id in FeedOf(side, a, b).trips.rows
  {
    var out, t := MapOf(side, m.trips.ids), FeedOf(side, a, b).trips.rows[id];
    && id in out && out[id] in m.trips.rows
    && TripPreserved(MapsOf(side, m), side, t, m.trips.rows[out[id]]) && NamesOriginal(a, b, id, t, m.trips.rows[out[id]])
    && RefsCarried(st, a, b, m, side, t, m.trips.rows[out[id]])
  }

  // ---------- the parts of the merge ----------

  ghost predicate BothBounded(a: Feed, b: Feed, n: nat) {
    AllBounded(a, n) && AllBounded(b, n)
  }

  ghost predicate IsBase(st: Settings, a: LoadedFeed, b: LoadedFeed, base: Base) {
    var n := FirstId(a, b);
    && BothBounded(a, b, n) && base.agencies == MergeAgencies(a, b, n)
    && BothBounded(a, b, base.agencies.ids.n) && base.stops == MergeStops(st, a, b, base.agencies.ids.n)
    && base.zones == StopZones(st, a, b, base.stops.ids.n)
  }

  ghost predicate IsMiddle(st: Settings, a: LoadedFeed, b: LoadedFeed, agencies: Mapping, n: nat, m: Middle)
    requires BothBounded(a, b, n) && AgencyMapsOk(a, b, agencies.old', agencies.new')
  {
    && m.routes == MergeRoutes(a, b, agencies.old', agencies.new', n)
    && BothBounded(a, b, m.routes.ids.n) && m.services == MergeServices(a, b, m.routes.ids.n)
    && BothBounded(a, b, m.services.ids.n) && m.fares == MergeFares(a, b, m.services.ids.n)
    && BothBounded(a, b, m.fares.ids.n) && m.shapes == MergeShapes(st, a, b, m.fares.ids.n)
  }

  ghost predicate IsMerge(st: Settings, a: LoadedFeed, b: LoadedFeed, m: Merge) {
    && IsBase(st, a, b, m.base) && BaseFits(a, b, m.base)
    && IsMiddle(st, a, b, m.base.agencies.ids, m.base.zones.n, m.middle) && MiddleFits(a, b, m.middle)
    && m.old' == OldMaps(m.base, m.middle) && m.new' == NewMaps(m.base, m.middle) && MapsFit(a, b, m.old', m.new')
    && m.trips == MergeTrips(a, b, m.old', m.new', m.middle.shapes.ids.n)
    && m.rules == MigratedRules(a, m.old', m.base.zones.a) + MigratedRules(b, m.new', m.base.zones.b)
  }

  lemma BaseParts(st: Settings, a: LoadedFeed, b: LoadedFeed)
    ensures IsBase(st, a, b, MergeBase(st, a, b))
  {
    hide MergeAgencies, MergeStops, StopZones, BaseFits, AllBounded;
    FirstIdBounds(a, b);
    StillBounded(a, FirstId(a, b), MergeBase(st, a, b).agencies.ids.n);
    StillBounded(b, FirstId(a, b), MergeBase(st, a, b).agencies.ids.n);
  }

  lemma MiddleParts(st: Settings, a: LoadedFeed, b: LoadedFeed, agencies: Mapping, n: nat)
    requires BothBounded(a, b, n) && AgencyMapsOk(a, b, agencies.old', agencies.new')
    ensures IsMiddle(st, a, b, agencies, n, MergeMiddle(st, a, b, agencies, n))
  {
    hide MergeRoutes, MergeServices, MergeFares, MergeShapes, MiddleFits, AllBounded;
    var m := MergeMiddle(st, a, b, agencies, n);
    StillBounded(a, n, m.routes.ids.n);
    StillBounded(b, n, m.routes.ids.n);
    StillBounded(a, n, m.services.ids.n);
    StillBounded(b, n, m.services.ids.n);
    StillBounded(a, n, m.fares.ids.n);
    StillBounded(b, n, m.fares.ids.n);
  }

  lemma LastParts(st: Settings, a: LoadedFeed, b: LoadedFeed, base: Base, middle: Middle)
    requires IsBase(st, a, b, base) && BaseFits(a, b, base)
    requires IsMiddle(st, a, b, base.agencies.ids, base.zones.n, middle) && MiddleFits(a, b, middle)
    ensures IsMerge(st, a, b, MergeLast(a, b, base, middle))
  {
    hide IsBase, IsMiddle, MergeTrips, MigratedRules;
    TablesFit(a, b, base, middle);
  }

  lemma MergeParts(st: Settings, a: LoadedFeed, b: LoadedFeed)
    ensures IsMerge(st, a, b, MergeFeeds(st, a, b))
  {
    hide IsBase, IsMiddle, IsMerge, MergeBase, MergeMiddle, MergeLast;
    var base := MergeBase(st, a, b);
    BaseParts(st, a, b);
    MiddleParts(st, a, b, base.agencies.ids, base.zones.n);
    LastParts(st, a, b, base, MergeMiddle(st, a, b, base.agencies.ids, base.zones.n));
  }

  // ---------- every trip is carried over ----------

  lemma AgencyCarried(st: Settings, a: LoadedFeed, b: LoadedFeed, m: Merge, side: Side, id: string)
    requires IsMerge(st, a, b, m) && id in FeedOf(side, a, b).agencies.rows
    ensures id in MapsOf(side, m).agency && AgencyKept(FeedOf(side, a, b), m, id, MapsOf(side, m).agency[id])
  {
    hide IsMiddle, MergeAgencies, MergeStops, MergeTrips, StopZones;
    AgencyImage(a, b, FirstId(a, b), side, id);
  }

  lemma ServiceCarried(st: Settings, a: LoadedFeed, b: LoadedFeed, m: Merge, side: Side, id: string)
    requires IsMerge(st, a, b, m) && id in FeedOf(side, a, b).services.rows
    ensures id in MapsOf(side, m).service && ServiceKept(FeedOf(side, a, b), m, id, MapsOf(side, m).service[id])
  {
    hide IsBase, MergeRoutes, MergeServices, MergeFares, MergeShapes, MergeTrips;
    ServiceImage(a, b, m.middle.routes.ids.n, side, id);
  }

  lemma RouteImageIn(st: Settings, a: LoadedFeed, b: LoadedFeed, m: Merge, side: Side, id: string)
    requires IsMerge(st, a, b, m) && id in FeedOf(side, a, b).routes.rows
    ensures var f, out := FeedOf(side, a, b), MapsOf(side, m).route;
            && id in out && out[id] in m.middle.routes.rows
            && RoutePreserved(MapsOf(side, m).agency, f, f.routes.rows[id], m.middle.routes.rows[out[id]])
  {
    hide IsBase, MergeRoutes, MergeServices, MergeFares, MergeShapes, MergeTrips, RoutePreserved;
    RouteImage(a, b, m.base.agencies.ids, m.base.zones.n, side, id);
  }

  lemma RouteCarried(st: Settings, a: LoadedFeed, b: LoadedFeed, m: Merge, side: Side, id: string)
    requires IsMerge(st, a, b, m) && id in FeedOf(side, a, b).routes.rows
    ensures id in MapsOf(side, m).route && RouteKept(FeedOf(side, a, b), m, side, id, MapsOf(side, m).route[id])
  {
    hide IsMerge, AgencyKept;
    var f := FeedOf(side, a, b);
    RouteImageIn(st, a, b, m, side, id);
    AgencyCarried(st, a, b, m, side, AgencyOf(f, f.routes.rows[id]));
  }

  lemma ShapeCarried(st: Settings, a: LoadedFeed, b: LoadedFeed, m: Merge, side: Side, id: string)
    requires IsMerge(st, a, b, m) && id in FeedOf(side, a, b).shapes.rows
    ensures id in MapsOf(side, m).shape && ShapeKept(st, FeedOf(side, a, b), m, side, id, MapsOf(side, m).shape[id])
  {
    hide IsBase, MergeRoutes, MergeServices, MergeFares, MergeShapes, MergeTrips, ShapePreserved;
    ShapeImage(st, a, b, m.middle.fares.ids.n, side, id);
  }

  lemma StopCarried(st: Settings, a: LoadedFeed, b: LoadedFeed, m: Merge, side: Side, id: string)
    requires IsMerge(st, a, b, m) && id in FeedOf(side, a, b).stops.rows
    ensures id in MapsOf(side, m).stop && StopKept(st, a, b, m, side, id, MapsOf(side, m).stop[id])
  {
    hide IsMiddle, MergeAgencies, MergeStops, MergeTrips, StopZones, StopPreserved;
    StopImage(st, a, b, m.base.agencies.ids.n, side, id);
  }

  lemma TripImageIn(st: Settings, a: LoadedFeed, b: LoadedFeed, m: Merge, side: Side, id: string)
    requires IsMerge(st, a, b, m) && id in FeedOf(side, a, b).trips.rows
    ensures var out := MapOf(side, m.trips.ids);
            && id in out && out[id] in m.trips.rows
            && TripPreserved(MapsOf(side, m), side, FeedOf(side, a, b).trips.rows[id], m.trips.rows[out[id]])
            && NamesOriginal(a, b, id, FeedOf(side, a, b).trips.rows[id], m.trips.rows[out[id]])
  {
    hide IsBase, MergeRoutes, MergeServices, MergeFares, MergeShapes, MergeTrips, TripPreserved, NamesOriginal;
    TripImage(a, b, m.old', m.new', m.middle.shapes.ids.n, side, id);
  }

  lemma RefsOfImage(st: Settings, a: LoadedFeed, b: LoadedFeed, m: Merge, side: Side, t: Trip, image: Trip)
    requires IsMerge(st, a, b, m)
    requires TripRefsOk(FeedOf(side, a, b), t) && TripPreserved(MapsOf(side, m), side, t, image)
    ensures RefsCarried(st, a, b, m, side, t, image)
  {
    hide IsMerge, ServiceKept, RouteKept, ShapeKept, StopKept;
    ServiceCarried(st, a, b, m, side, t.service);
    RouteCarried(st, a, b, m, side, t.route);
    if t.shape != "" {
      ShapeCarried(st, a, b, m, side, t.shape);
    }
    forall i | 0 <= i < |t.stopTimes|
      ensures StopKept(st, a, b, m, side, t.stopTimes[i].stop, image.stopTimes[i].stop)
    {
      assert StopTimePreserved(MapsOf(side, m), t.stopTimes[i], image.stopTimes[i]);
      StopCarried(st, a, b, m, side, t.stopTimes[i].stop);
    }
  }

  lemma TripRefs(f: LoadedFeed, id: string)
    requires id in f.trips.rows
    ensures TripRefsOk(f, f.trips.rows[id])
  {
  }

  lemma TripCarried(st: Settings, a: LoadedFeed, b: LoadedFeed, m: Merge, side: Side, id: string)
    requires IsMerge(st, a, b, m) && id in FeedOf(side, a, b).trips.rows
    ensures Carried(st, a, b, m, side, id)
  {
    hide IsMerge, TripPreserved, RefsCarried, NamesOriginal;
    var f := FeedOf(side, a, b);
    TripRefs(f, id);
    TripImageIn(st, a, b, m, side, id);
    RefsOfImage(st, a, b, m, side, f.trips.rows[id], m.trips.rows[MapOf(side, m.trips.ids)[id]]);
  }

  /** The theorem of the merge: every trip of either feed is carried into the merged one. */
  lemma TimetablesPreserved(st: Settings, a: LoadedFeed, b: LoadedFeed, side: Side, id: string)
    requires id in FeedOf(side, a, b).trips.rows
    ensures Carried(st, a, b, MergeFeeds(st, a, b), side, id)
  {
    hide IsMerge, Carried, MergeFeeds;
    MergeParts(st, a, b);
    TripCarried(st, a, b, MergeFeeds(st, a, b), side, id);
  }

  /** out is the id of the image of this feed's entity with this id. */
  ghost predicate IsImage(ids: Mapping, side: Side, id: string, out: string) {
    id in MapOf(side, ids) && MapOf(side, ids)[id] == out
  }

  /** The outcomes are exactly the images, and no two entities become one. */
  ghost predicate OneToOne(ids: Mapping, outs: set<string>) {
    && (forall out :: out in outs <==> exists side, id :: IsImage(ids, side, id, out))
    && (forall side, id, side', id', out :: IsImage(ids, side, id, out) && IsImage(ids, side', id', out) ==> side == side' && id == id')
  }

  lemma ImagesOfUnmerged(ids: Mapping, a: set<string>, b: set<string>)
    requires MappingOk(ids, a, b, {})
    ensures OneToOne(ids, set e | e in ids.plan :: OutId(e))
  {
    hide OutId, MappingOk;
    NoneMerged(ids, a, b);
    forall side, id, out | IsImage(ids, side, id, out)
      ensures exists e :: e in ids.plan && OutId(e) == out && e.id == id && (side == Old <==> e.OnlyOld?)
    {
      var e := ImageOfUnmerged(ids, a, b, side, id);
    }
  }

  lemma NoneMerged(ids: Mapping, a: set<string>, b: set<string>)
    requires MappingOk(ids, a, b, {})
    ensures forall e :: e in ids.plan ==> IsImage(ids, if e.OnlyOld? then Old else New, e.id, OutId(e))
    ensures forall e, f :: e in ids.plan && f in ids.plan && OutId(e) == OutId(f) ==> e == f
  {
    hide OutId;
  }

  lemma ImageOfUnmerged(ids: Mapping, a: set<string>, b: set<string>, side: Side, id: string) returns (e: Entry)
    requires MappingOk(ids, a, b, {}) && id in MapOf(side, ids)
    ensures e in ids.plan && e.id == id && OutId(e) == MapOf(side, ids)[id] && (side == Old <==> e.OnlyOld?)
  {
    hide OutId;
    e := Image(ids, a, b, {}, side, id);
  }

  lemma TripRowsAre(a: LoadedFeed, b: LoadedFeed, old': Maps, new': Maps, n: nat)
    requires AllBounded(a, n) && AllBounded(b, n) && MapsFit(a, b, old', new')
    ensures var trips := MergeTrips(a, b, old', new', n);
            && trips.rows.Keys == (set e | e in trips.ids.plan :: OutId(e))
            && trips.ids.old'.Keys == a.trips.rows.Keys && trips.ids.new'.Keys == b.trips.rows.Keys
            && OneToOne(trips.ids, trips.rows.Keys)
  {
    hide TripOf, OutId, OneToOne, AllBounded;
    var trips := MergeTrips(a, b, old', new', n);
    ImagesOfUnmerged(trips.ids, SetOf(a.trips.keys), SetOf(b.trips.keys));
  }

  /** The merged feed has no other trips than the images, and no two trips have the same one. */
  lemma TripsCorrespond(st: Settings, a: LoadedFeed, b: LoadedFeed)
    ensures var trips := MergeFeeds(st, a, b).trips;
            && trips.ids.old'.Keys == a.trips.rows.Keys && trips.ids.new'.Keys == b.trips.rows.Keys
            && OneToOne(trips.ids, trips.rows.Keys)
  {
    hide IsBase, IsMiddle, MergeFeeds, MergeTrips, OneToOne;
    MergeParts(st, a, b);
    var m := MergeFeeds(st, a, b);
    TripRowsAre(a, b, m.old', m.new', m.middle.shapes.ids.n);
  }

  /** Vehicle blocks of the two feeds are not run together, and those of one feed neither merged nor split. */
  lemma BlocksStayApart(m: Maps, side: Side, t: Trip, image: Trip, m': Maps, side': Side, t': Trip, image': Trip)
    requires TripPreserved(m, side, t, image) && TripPreserved(m', side', t', image')
    requires t.block != "" && t'.block != ""
    ensures image.block == image'.block <==> side == side' && t.block == t'.block
  {
    assert image.block[2..] == t.block && image'.block[2..] == t'.block;
    assert image.block[0] == (if side == Old then 'a' else 'b') && image'.block[0] == (if side' == Old then 'a' else 'b');
  }

  // ---------- fare rules ----------

  /** r is what the rule of the fare becomes through these maps. */
  ghost predicate IsRuleImage(maps: Maps, zones: ZoneMap, fare: string, rule: FareRule, r: MergedRule) {
    && fare in maps.fare && r.fare == maps.fare[fare]
    && (if rule.route == "" then r.rule.route == "" else rule.route in maps.route && r.rule.route == maps.route[rule.route])
    && ZoneImage(zones, rule.origin, r.rule.origin)
    && ZoneImage(zones, rule.destination, r.rule.destination)
    && ZoneImage(zones, rule.contains, r.rule.contains)
  }

  ghost predicate ZoneImage(zones: ZoneMap, zone: string, image: string) {
    if zone == "" then image == "" else zone in zones && image == zones[zone]
  }

  ghost predicate HasRule(f: Feed, fare: string, rule: FareRule) {
    fare in f.fares.rows && rule in f.fares.rows[fare].rules
  }

  lemma ZoneOfRule(f: Feed, z: ZoneMap, zone: string)
    requires ZonesCover(f, z) && (zone == "" || IsZone(f, zone))
    ensures zone == "" || zone in z
  {
  }

  lemma RuleImageIs(f: Feed, m: Maps, z: ZoneMap, fare: string, rule: FareRule, r: MergedRule)
    requires MapsCover(f, m) && ZonesCover(f, z) && RuleRefsOk(f, rule) && fare in f.fares.rows
    ensures IsRuleImage(m, z, fare, rule, r) <==> r == MigratedRule(f, m, z, fare, rule)
  {
    ZoneOfRule(f, z, rule.origin);
    ZoneOfRule(f, z, rule.destination);
    ZoneOfRule(f, z, rule.contains);
  }

  lemma RuleHasOrigin(f: LoadedFeed, m: Maps, z: ZoneMap, r: MergedRule)
    requires MapsCover(f, m) && ZonesCover(f, z) && r in MigratedRules(f, m, z)
    ensures exists fare, rule :: HasRule(f, fare, rule) && IsRuleImage(m, z, fare, rule, r)
  {
    var fare, rule :| fare in f.fares.rows && rule in f.fares.rows[fare].rules && r == MigratedRule(f, m, z, fare, rule);
    RuleImageIs(f, m, z, fare, rule, r);
    assert HasRule(f, fare, rule);
  }

  lemma RuleIsMigrated(f: LoadedFeed, m: Maps, z: ZoneMap, fare: string, rule: FareRule, r: MergedRule)
    requires MapsCover(f, m) && ZonesCover(f, z) && HasRule(f, fare, rule)
    requires IsRuleImage(m, z, fare, rule, r)
    ensures r in MigratedRules(f, m, z)
  {
    assert RuleRefsOk(f, rule);
    RuleImageIs(f, m, z, fare, rule, r);
  }

  lemma RulesOfFeed(f: LoadedFeed, m: Maps, z: ZoneMap, r: MergedRule)
    requires MapsCover(f, m) && ZonesCover(f, z)
    ensures r in MigratedRules(f, m, z) <==> exists fare, rule :: HasRule(f, fare, rule) && IsRuleImage(m, z, fare, rule, r)
  {
    if r in MigratedRules(f, m, z) {
      RuleHasOrigin(f, m, z, r);
    }
    if fare, rule :| HasRule(f, fare, rule) && IsRuleImage(m, z, fare, rule, r) {
      RuleIsMigrated(f, m, z, fare, rule, r);
    }
  }

  /** The merged fare rules are exactly the images of the rules of both feeds, through each feed's own zone map. */
  lemma RulesAreImages(st: Settings, a: LoadedFeed, b: LoadedFeed, r: MergedRule)
    ensures var m := MergeFeeds(st, a, b);
            r in m.rules <==>
            (exists fare, rule :: HasRule(a, fare, rule) && IsRuleImage(m.old', m.base.zones.a, fare, rule, r)) ||
            (exists fare, rule :: HasRule(b, fare, rule) && IsRuleImage(m.new', m.base.zones.b, fare, rule, r))
  {
    MergeParts(st, a, b);
    var m := MergeFeeds(st, a, b);
    RulesOfFeed(a, m.old', m.base.zones.a, r);
    RulesOfFeed(b, m.new', m.base.zones.b, r);
  }
}
