/** A timetable feed: its tables, and what loading it without errors guarantees. */
module Feeds {
  import opened Wrappers
  import opened Ids
  import opened Sequences
  import opened SameId
  import opened Calendars

  /** A table: its ids in order, and the entity of each. */
  datatype Dict<E> = Dict(keys: seq<string>, rows: map<string, E>)

  ghost predicate DictOk<E>(d: Dict<E>) {
    Distinct(d.keys) && d.rows.Keys == SetOf(d.keys)
  }

  // The attributes that merging looks at or changes; rest stands for all others, which are only copied.
  // An empty string is an attribute that is not given.

  datatype Agency = Agency(name: string, url: string, timezone: string, rest: string)

  datatype Stop = Stop(name: string, zone: string, locationType: int, lat: real, lon: real, parent: string, rest: string)

  datatype Route = Route(agency: string, shortName: string, longName: string, routeType: string,
                         url: string, color: string, textColor: string, rest: string)

  datatype FareRule = FareRule(route: string, origin: string, destination: string, contains: string)

  datatype Fare = Fare(price: real, currency: string, payment: int, transfers: Option<int>, duration: Option<int>,
                       rules: seq<FareRule>)

  datatype Shape = Shape(points: seq<(real, real, real)>)

  datatype StopTime = StopTime(stop: string, arrival: Option<int>, departure: Option<int>, headsign: string,
                               pickup: Option<int>, dropOff: Option<int>, distance: Option<real>, timepoint: Option<int>)

  datatype Frequency = Frequency(start: int, end: int, headway: int, exact: int)

  datatype Trip = Trip(route: string, service: string, block: string, shape: string,
                       stopTimes: seq<StopTime>, frequencies: seq<Frequency>, originalId: string, rest: string)

  datatype Feed = Feed(
    agencies: Dict<Agency>,
    stops: Dict<Stop>,
    routes: Dict<Route>,
    services: Dict<Calendar>,
    fares: Dict<Fare>,
    shapes: Dict<Shape>,
    trips: Dict<Trip>)

  ghost predicate TablesOk(f: Feed) {
    DictOk(f.agencies) && DictOk(f.stops) && DictOk(f.routes) && DictOk(f.services)
    && DictOk(f.fares) && DictOk(f.shapes) && DictOk(f.trips)
  }

  ghost predicate StopRefsOk(f: Feed, s: Stop) {
    s.parent == "" || s.parent in f.stops.rows
  }

  /** A route names its agency, or leaves it out if there is only one. */
  ghost predicate RouteRefsOk(f: Feed, r: Route) {
    if r.agency == "" then |f.agencies.keys| == 1 else r.agency in f.agencies.rows
  }

  ghost predicate TripRefsOk(f: Feed, t: Trip) {
    && t.route in f.routes.rows && t.service in f.services.rows
    && (t.shape == "" || t.shape in f.shapes.rows)
    && (forall i :: 0 <= i < |t.stopTimes| ==> t.stopTimes[i].stop in f.stops.rows)
  }

  ghost predicate IsZone(f: Feed, zone: string) {
    exists id :: id in f.stops.rows && f.stops.rows[id].zone == zone
  }

  ghost predicate RuleRefsOk(f: Feed, r: FareRule) {
    && (r.route == "" || r.route in f.routes.rows)
    && (r.origin == "" || IsZone(f, r.origin))
    && (r.destination == "" || IsZone(f, r.destination))
    && (r.contains == "" || IsZone(f, r.contains))
  }

  ghost predicate FeedOk(f: Feed) {
    && TablesOk(f)
    && (forall id :: id in f.stops.rows ==> StopRefsOk(f, f.stops.rows[id]))
    && (forall id :: id in f.routes.rows ==> RouteRefsOk(f, f.routes.rows[id]))
    && (forall id :: id in f.trips.rows ==> TripRefsOk(f, f.trips.rows[id]))
    && (forall id, r :: id in f.fares.rows && r in f.fares.rows[id].rules ==> RuleRefsOk(f, r))
  }

  const NO_FEED := Feed(Dict([], map[]), Dict([], map[]), Dict([], map[]), Dict([], map[]), Dict([], map[]), Dict([], map[]), Dict([], map[]))

  /** A feed that was loaded without errors. */
  type LoadedFeed = f: Feed | FeedOk(f) ghost witness NO_FEED

  /** The seven sets of ids that are searched for the largest number. */
  function ScannedIds(f: Feed): seq<string> {
    f.agencies.keys + f.stops.keys + f.routes.keys + f.trips.keys + f.services.keys + f.fares.keys + f.shapes.keys
  }

  /** No id of the feed ends in a number beyond n. */
  ghost predicate AllBounded(f: Feed, n: nat) {
    forall id ::
      (id in f.agencies.keys || id in f.stops.keys || id in f.routes.keys || id in f.services.keys
       || id in f.fares.keys || id in f.shapes.keys || id in f.trips.keys) ==> PostfixNumber(id) <= n
  }

  lemma ScannedBounds(f: Feed, n: nat)
    requires Bounded(ScannedIds(f), n)
    ensures AllBounded(f, n)
  {
    var s := ScannedIds(f);
    assert forall id :: id in f.agencies.keys || id in f.stops.keys || id in f.routes.keys || id in f.trips.keys ==> id in s;
    assert forall id :: id in f.services.keys || id in f.fares.keys || id in f.shapes.keys ==> id in s;
  }
}
