/**
 The rows of the merged tables: which old and new rows become one, attribute by attribute, and that a row which has
 not become one with another is carried over with all that it says.
 */
module MergedRows {
  import opened Wrappers
  import opened Ids
  import opened Sequences
  import opened SameId
  import opened Calendars
  import opened Zones
  import opened Feeds
  import opened FeedMerges
  import opened FeedMergeProofs
  import opened StopMergeProofs
  import opened MergedFeeds

  ghost predicate Injective(m: map<string, string>) {
    forall p, q :: p in m && q in m && m[p] == m[q] ==> p == q
  }

  /** An old and a new row have the same image exactly if they have the same id, and it is one of the merged ids. */
  ghost predicate Meet(old': map<string, string>, new': map<string, string>, merged: set<string>) {
    forall p, q :: p in old' && q in new' ==> (old'[p] == new'[q] <==> p == q && p in merged)
  }

  /** The rows of a merged table are the images and no others; two rows have one image only as told. */
  ghost predicate Correspond(old': map<string, string>, new': map<string, string>, outs: set<string>, merged: set<string>) {
    outs == old'.Values + new'.Values && Injective(old') && Injective(new') && Meet(old', new', merged)
  }

  lemma StageCorresponds<E>(s: Stage<E>, a: seq<string>, b: seq<string>, ok: set<string>, n: nat)
    requires Distinct(a) && Distinct(b) && Bounded(a, n) && Bounded(b, n)
    requires s.ids == MapIds(a, b, ok, n) && RowsOfPlan(s)
    ensures Correspond(s.ids.old', s.ids.new', s.rows.Keys, ok)
  {
    hide MapIds, MappingOk, RowsOfPlan, Meet, Injective, Distinct, Bounded;
    OutsAreImages(s, SetOf(a), SetOf(b), ok);
    ImagesDiffer(s.ids, SetOf(a), SetOf(b), ok);
    ImagesMeet(a, b, ok, n);
  }

  lemma ImagesMeet(a: seq<string>, b: seq<string>, ok: set<string>, n: nat)
    requires Distinct(a) && Distinct(b) && Bounded(a, n) && Bounded(b, n)
    ensures Meet(MapIds(a, b, ok, n).old', MapIds(a, b, ok, n).new', ok)
  {
    hide MapIds, PlanOk, OldMap, NewMap, Distinct, Bounded;
    var ids := MapIds(a, b, ok, n);
    forall p, q | p in ids.old' && q in ids.new'
      ensures ids.old'[p] == ids.new'[q] <==> p == q && p in ok
    {
      SameImageIff(a, b, ok, n, p, q);
    }
  }

  lemma OutsAreImages<E>(s: Stage<E>, a: set<string>, b: set<string>, ok: set<string>)
    requires MappingOk(s.ids, a, b, ok) && RowsOfPlan(s)
    ensures s.rows.Keys == s.ids.old'.Values + s.ids.new'.Values
  {
    hide OutId;
    forall out | out in s.rows
      ensures out in s.ids.old'.Values + s.ids.new'.Values
    {
      var side, id := RowHasSource(s, a, b, ok, out);
      assert id in MapOf(side, s.ids) && MapOf(side, s.ids)[id] == out;
    }
  }

  lemma ImagesDiffer(ids: Mapping, a: set<string>, b: set<string>, ok: set<string>)
    requires MappingOk(ids, a, b, ok)
    ensures Injective(ids.old') && Injective(ids.new')
  {
    hide OutId;
  }

  /** The old and the new row with this id have become one. */
  ghost predicate OneImage(ids: Mapping, id: string) {
    id in ids.old' && id in ids.new' && ids.old'[id] == ids.new'[id]
  }

  /** A row that is not given up for another: a new one, or one that has become one with none. */
  ghost predicate Kept(ids: Mapping, side: Side, id: string) {
    side == New || !OneImage(ids, id)
  }

  lemma BothIsOneImage(ids: Mapping, a: set<string>, b: set<string>, ok: set<string>, e: Entry)
    requires MappingOk(ids, a, b, ok) && e in ids.plan && e.Both?
    ensures OneImage(ids, e.id)
  {
  }

  // ---------- fares ----------

  ghost predicate SameFare(f: Fare, g: Fare) {
    && f.price == g.price && f.currency == g.currency && f.payment == g.payment
    && f.transfers == g.transfers && f.duration == g.duration
  }

  /** Every fare has an image of its price, currency, payment method, transfers and duration. */
  lemma FareImage(st: Settings, a: LoadedFeed, b: LoadedFeed, side: Side, id: string)
    requires id in FeedOf(side, a, b).fares.rows
    ensures var m := MergeFeeds(st, a, b);
            var fare, out := FeedOf(side, a, b).fares.rows[id], MapsOf(side, m).fare;
            && id in out && out[id] in m.middle.fares.rows
            && (var image := m.middle.fares.rows[out[id]];
                && image.price == fare.price && image.currency == fare.currency && image.payment == fare.payment
                && image.transfers == fare.transfers && image.duration == fare.duration)
  {
    hide IsMerge, MergeFeeds;
    MergeParts(st, a, b);
    FareImageIn(st, a, b, MergeFeeds(st, a, b), side, id);
  }

  lemma FareImageIn(st: Settings, a: LoadedFeed, b: LoadedFeed, m: Merge, side: Side, id: string)
    requires IsMerge(st, a, b, m) && id in FeedOf(side, a, b).fares.rows
    ensures var out := MapsOf(side, m).fare;
            && id in out && out[id] in m.middle.fares.rows
            && SameFare(m.middle.fares.rows[out[id]], FeedOf(side, a, b).fares.rows[id])
  {
    hide IsBase, MergeRoutes, MergeServices, MergeFares, MergeShapes, MergeTrips, SameFare;
    FareImageAt(a, b, m.middle.services.ids.n, side, id);
  }

  lemma FareImageAt(a: LoadedFeed, b: LoadedFeed, n: nat, side: Side, id: string)
    requires AllBounded(a, n) && AllBounded(b, n) && id in FeedOf(side, a, b).fares.rows
    ensures var s := MergeFares(a, b, n);
            var out := MapOf(side, s.ids)[id];
            out in s.rows && SameFare(s.rows[out], FeedOf(side, a, b).fares.rows[id])
  {
    var s := MergeFares(a, b, n);
    var e := Image(s.ids, SetOf(a.fares.keys), SetOf(b.fares.keys), FareIds(a, b), side, id);
  }

  /** Fares of one id become one exactly if price, currency, payment method, transfers and duration are the same. */
  lemma FaresCorrespond(st: Settings, a: LoadedFeed, b: LoadedFeed)
    ensures var m := MergeFeeds(st, a, b);
            Correspond(m.old'.fare, m.new'.fare, m.middle.fares.rows.Keys,
                       set id | id in a.fares.rows && id in b.fares.rows && SameFare(a.fares.rows[id], b.fares.rows[id]))
  {
    hide IsBase, IsMerge, MergeFeeds, MergeFares, Correspond;
    MergeParts(st, a, b);
    var m := MergeFeeds(st, a, b);
    FaresOf(st, a, b, m);
    FaresCorrespondAt(a, b, m.middle.services.ids.n);
  }

  /** Two fares of one id have one image exactly if these five are the same. */
  lemma FaresMergeIff(st: Settings, a: LoadedFeed, b: LoadedFeed, id: string)
    requires id in a.fares.rows && id in b.fares.rows
    ensures var m := MergeFeeds(st, a, b);
            var f, g := a.fares.rows[id], b.fares.rows[id];
            && id in m.old'.fare && id in m.new'.fare
            && (m.old'.fare[id] == m.new'.fare[id] <==>
                f.price == g.price && f.currency == g.currency && f.payment == g.payment
                && f.transfers == g.transfers && f.duration == g.duration)
  {
    hide MergeFeeds;
    FaresCorrespond(st, a, b);
    FareImage(st, a, b, Old, id);
    FareImage(st, a, b, New, id);
  }

  lemma FaresOf(st: Settings, a: LoadedFeed, b: LoadedFeed, m: Merge)
    requires IsMerge(st, a, b, m)
    ensures BothBounded(a, b, m.middle.services.ids.n) && m.middle.fares == MergeFares(a, b, m.middle.services.ids.n)
    ensures m.old'.fare == m.middle.fares.ids.old' && m.new'.fare == m.middle.fares.ids.new'
  {
    hide IsBase, MergeRoutes, MergeServices, MergeFares, MergeShapes, MergeTrips;
  }

  lemma FareIdsAre(a: LoadedFeed, b: LoadedFeed)
    ensures FareIds(a, b) == set id | id in a.fares.rows && id in b.fares.rows && SameFare(a.fares.rows[id], b.fares.rows[id])
  {
  }

  lemma FaresCorrespondAt(a: LoadedFeed, b: LoadedFeed, n: nat)
    requires AllBounded(a, n) && AllBounded(b, n)
    ensures var s := MergeFares(a, b, n);
            Correspond(s.ids.old', s.ids.new', s.rows.Keys,
                       set id | id in a.fares.rows && id in b.fares.rows && SameFare(a.fares.rows[id], b.fares.rows[id]))
  {
    hide Correspond, FareOutcomes, Plan, RowsOfPlan, FareIds, SameFare;
    FareTable(a, b, n);
    FareIdsAre(a, b);
    StageCorresponds(MergeFares(a, b, n), a.fares.keys, b.fares.keys, FareIds(a, b), n);
  }

  // ---------- agencies ----------

  ghost predicate SameAgency(x: Agency, y: Agency) {
    x.name == y.name && x.url == y.url && x.timezone == y.timezone
  }

  /** A row that has been kept is carried over as it is. */
  ghost predicate Copied<E>(a: Dict<E>, b: Dict<E>, s: Stage<E>, side: Side, id: string)
    requires id in if side == Old then a.rows else b.rows
  {
    var out := MapOf(side, s.ids);
    && id in out && out[id] in s.rows
    && (Kept(s.ids, side, id) ==> s.rows[out[id]] == if side == Old then a.rows[id] else b.rows[id])
  }

  lemma CopiesAreCopied<E>(a: Dict<E>, b: Dict<E>, s: Stage<E>, ok: set<string>, side: Side, id: string)
    requires MappingOk(s.ids, SetOf(a.keys), SetOf(b.keys), ok) && DictOk(a) && DictOk(b)
    requires SourcesOk(a, b, s.ids.plan) && s.rows == Copies(a, b, s.ids.plan)
    requires id in if side == Old then a.rows else b.rows
    ensures Copied(a, b, s, side, id)
  {
    hide OutId, Copies, SourcesOk, OneImage, PlanOk;
    var e := Image(s.ids, SetOf(a.keys), SetOf(b.keys), ok, side, id);
    CopyAt(a, b, s.ids.plan, e);
    if e.Both? {
      BothIsOneImage(s.ids, SetOf(a.keys), SetOf(b.keys), ok, e);
    }
  }

  lemma CopyAt<E>(a: Dict<E>, b: Dict<E>, plan: seq<Entry>, e: Entry)
    requires SourcesOk(a, b, plan) && e in plan
    ensures (e.OnlyNew? || e.id in a.rows) && (e.OnlyOld? || e.id in b.rows)
    ensures OutId(e) in Copies(a, b, plan) && Copies(a, b, plan)[OutId(e)] == if e.OnlyOld? then a.rows[e.id] else b.rows[e.id]
  {
    hide OutId;
  }

  lemma AgenciesOf(st: Settings, a: LoadedFeed, b: LoadedFeed, m: Merge)
    requires IsMerge(st, a, b, m)
    ensures BothBounded(a, b, FirstId(a, b)) && m.base.agencies == MergeAgencies(a, b, FirstId(a, b))
    ensures m.old'.agency == m.base.agencies.ids.old' && m.new'.agency == m.base.agencies.ids.new'
  {
    hide IsMiddle, MergeAgencies, MergeStops, MergeTrips, StopZones;
  }

  lemma AgencyIdsAre(a: LoadedFeed, b: LoadedFeed)
    ensures AgencyIds(a, b) ==
            set id | id in a.agencies.rows && id in b.agencies.rows && SameAgency(a.agencies.rows[id], b.agencies.rows[id])
  {
  }

  lemma AgenciesCorrespondAt(a: LoadedFeed, b: LoadedFeed, n: nat)
    requires AllBounded(a, n) && AllBounded(b, n)
    ensures var s := MergeAgencies(a, b, n);
            Correspond(s.ids.old', s.ids.new', s.rows.Keys,
                       set id | id in a.agencies.rows && id in b.agencies.rows && SameAgency(a.agencies.rows[id], b.agencies.rows[id]))
  {
    hide Correspond, Copies, Plan, RowsOfPlan, AgencyIds, SameAgency;
    AgencyTable(a, b, n);
    AgencyIdsAre(a, b);
    StageCorresponds(MergeAgencies(a, b, n), a.agencies.keys, b.agencies.keys, AgencyIds(a, b), n);
  }

  /** Agencies of one id become one exactly if name, address and time zone are the same. */
  lemma AgenciesCorrespond(st: Settings, a: LoadedFeed, b: LoadedFeed)
    ensures var m := MergeFeeds(st, a, b);
            Correspond(m.old'.agency, m.new'.agency, m.base.agencies.rows.Keys,
                       set id | id in a.agencies.rows && id in b.agencies.rows && SameAgency(a.agencies.rows[id], b.agencies.rows[id]))
  {
    hide IsMerge, MergeFeeds, MergeAgencies, Correspond;
    MergeParts(st, a, b);
    AgenciesOf(st, a, b, MergeFeeds(st, a, b));
    AgenciesCorrespondAt(a, b, FirstId(a, b));
  }

  lemma AgencyCopied(st: Settings, a: LoadedFeed, b: LoadedFeed, side: Side, id: string)
    requires id in FeedOf(side, a, b).agencies.rows
    ensures Copied(a.agencies, b.agencies, MergeFeeds(st, a, b).base.agencies, side, id)
  {
    hide IsMerge, MergeFeeds, MergeAgencies, Copied;
    MergeParts(st, a, b);
    AgenciesOf(st, a, b, MergeFeeds(st, a, b));
    AgencyCopiedAt(a, b, FirstId(a, b), side, id);
  }

  lemma AgencyCopiedAt(a: LoadedFeed, b: LoadedFeed, n: nat, side: Side, id: string)
    requires AllBounded(a, n) && AllBounded(b, n) && id in FeedOf(side, a, b).agencies.rows
    ensures Copied(a.agencies, b.agencies, MergeAgencies(a, b, n), side, id)
  {
    hide Copied, Copies, SourcesOk;
    var s := MergeAgencies(a, b, n);
    MappingSources(a.agencies, b.agencies, s.ids, AgencyIds(a, b));
    CopiesAreCopied(a.agencies, b.agencies, s, AgencyIds(a, b), side, id);
  }

  // ---------- stops ----------

  ghost predicate SameStop(st: Settings, x: Stop, y: Stop) {
    && st.stopDistance(x, y) <= st.largestStopDistance && st.lower(x.name) == st.lower(y.name)
    && x.zone == y.zone && x.locationType == y.locationType
  }

  lemma StopsOf(st: Settings, a: LoadedFeed, b: LoadedFeed, m: Merge)
    requires IsMerge(st, a, b, m)
    ensures BothBounded(a, b, m.base.agencies.ids.n) && m.base.stops == MergeStops(st, a, b, m.base.agencies.ids.n)
    ensures m.old'.stop == m.base.stops.ids.old' && m.new'.stop == m.base.stops.ids.new'
  {
    hide IsMiddle, MergeAgencies, MergeStops, MergeTrips, StopZones;
  }

  lemma StopIdsAre(st: Settings, a: LoadedFeed, b: LoadedFeed)
    ensures StopIds(st, a, b) == set id | id in a.stops.rows && id in b.stops.rows && SameStop(st, a.stops.rows[id], b.stops.rows[id])
  {
  }

  lemma StopsCorrespondAt(st: Settings, a: LoadedFeed, b: LoadedFeed, n: nat)
    requires AllBounded(a, n) && AllBounded(b, n)
    ensures var s := MergeStops(st, a, b, n);
            Correspond(s.ids.old', s.ids.new', s.rows.Keys,
                       set id | id in a.stops.rows && id in b.stops.rows && SameStop(st, a.stops.rows[id], b.stops.rows[id]))
  {
    hide Correspond, StopOutcomes, StopZones, Plan, RowsOfPlan, StopIds, SameStop, StopEntryOk;
    StopTable(st, a, b, n);
    StopIdsAre(st, a, b);
    StageCorresponds(MergeStops(st, a, b, n), a.stops.keys, b.stops.keys, StopIds(st, a, b), n);
  }

  /** Stops of one id become one exactly if they are near, of one name but for case, in one zone and of one type. */
  lemma StopsCorrespond(st: Settings, a: LoadedFeed, b: LoadedFeed)
    ensures var m := MergeFeeds(st, a, b);
            Correspond(m.old'.stop, m.new'.stop, m.base.stops.rows.Keys,
                       set id | id in a.stops.rows && id in b.stops.rows && SameStop(st, a.stops.rows[id], b.stops.rows[id]))
  {
    hide IsMerge, MergeFeeds, MergeStops, Correspond;
    MergeParts(st, a, b);
    StopsOf(st, a, b, MergeFeeds(st, a, b));
    StopsCorrespondAt(st, a, b, MergeFeeds(st, a, b).base.agencies.ids.n);
  }

  /** A stop that has been kept is carried over as it is but for its zone and its parent station. */
  ghost predicate StopCopied(f: Feed, s: Stage<Stop>, side: Side, id: string)
    requires id in f.stops.rows
  {
    var out, stop := MapOf(side, s.ids), f.stops.rows[id];
    && id in out && out[id] in s.rows
    && (Kept(s.ids, side, id) ==> s.rows[out[id]] == stop.(zone := s.rows[out[id]].zone, parent := s.rows[out[id]].parent))
  }

  lemma StopCopiedAt(st: Settings, a: LoadedFeed, b: LoadedFeed, n: nat, side: Side, id: string)
    requires AllBounded(a, n) && AllBounded(b, n) && id in FeedOf(side, a, b).stops.rows
    ensures StopCopied(FeedOf(side, a, b), MergeStops(st, a, b, n), side, id)
  {
    hide OutId, OneImage, PlanOk, StopIds, StopEntryOk, MapIds, StopZones;
    var s := MergeStops(st, a, b, n);
    var e := Image(s.ids, SetOf(a.stops.keys), SetOf(b.stops.keys), StopIds(st, a, b), side, id);
    StopEntriesOk(st, a, b, n);
    StopAt(a, b, s.ids, StopZones(st, a, b, s.ids.n), e);
    if e.Both? {
      BothIsOneImage(s.ids, SetOf(a.stops.keys), SetOf(b.stops.keys), StopIds(st, a, b), e);
    }
  }

  lemma StopAt(a: LoadedFeed, b: LoadedFeed, ids: Mapping, z: BothZones, e: Entry)
    requires StopSources(a, b, ids, z) && e in ids.plan
    ensures (e.OnlyNew? || e.id in a.stops.rows) && (e.OnlyOld? || e.id in b.stops.rows)
    ensures OutId(e) in StopOutcomes(a, b, ids, z)
    ensures var stop, image := if e.OnlyOld? then a.stops.rows[e.id] else b.stops.rows[e.id], StopOutcomes(a, b, ids, z)[OutId(e)];
            image == stop.(zone := image.zone, parent := image.parent)
  {
    hide OutId;
    assert StopOutcomes(a, b, ids, z)[OutId(e)] == StopOf(a, b, e, ids.old', ids.new', z);
  }

  lemma StopIsCopied(st: Settings, a: LoadedFeed, b: LoadedFeed, side: Side, id: string)
    requires id in FeedOf(side, a, b).stops.rows
    ensures StopCopied(FeedOf(side, a, b), MergeFeeds(st, a, b).base.stops, side, id)
  {
    hide IsMerge, MergeFeeds, MergeStops, StopCopied;
    MergeParts(st, a, b);
    StopsOf(st, a, b, MergeFeeds(st, a, b));
    StopCopiedAt(st, a, b, MergeFeeds(st, a, b).base.agencies.ids.n, side, id);
  }

  // ---------- routes ----------

  /** Not both are given and differ. */
  ghost predicate Compatible(x: string, y: string) {
    x != "" && y != "" ==> x == y
  }

  ghost predicate SameRoute(a: LoadedFeed, b: LoadedFeed, old': map<string, string>, new': map<string, string>, r: Route, q: Route)
    requires RouteRefsOk(a, r) && RouteRefsOk(b, q)
  {
    && r.shortName == q.shortName && r.longName == q.longName && r.routeType == q.routeType
    && AgencyOf(a, r) in old' && AgencyOf(b, q) in new' && old'[AgencyOf(a, r)] == new'[AgencyOf(b, q)]
    && Compatible(r.url, q.url) && Compatible(r.color, q.color) && Compatible(r.textColor, q.textColor)
  }

  lemma RoutesOf(st: Settings, a: LoadedFeed, b: LoadedFeed, m: Merge)
    requires IsMerge(st, a, b, m)
    ensures BothBounded(a, b, m.base.zones.n) && AgencyMapsOk(a, b, m.old'.agency, m.new'.agency)
    ensures m.middle.routes == MergeRoutes(a, b, m.old'.agency, m.new'.agency, m.base.zones.n)
    ensures m.old'.route == m.middle.routes.ids.old' && m.new'.route == m.middle.routes.ids.new'
  {
    hide IsBase, MergeRoutes, MergeServices, MergeFares, MergeShapes, MergeTrips;
  }

  lemma RouteIdsAre(a: LoadedFeed, b: LoadedFeed, old': map<string, string>, new': map<string, string>)
    requires AgencyMapsOk(a, b, old', new')
    ensures RouteIds(a, b, old', new') ==
            set id | id in a.routes.rows && id in b.routes.rows && SameRoute(a, b, old', new', a.routes.rows[id], b.routes.rows[id])
  {
    hide AgencyOf;
  }

  lemma RoutesCorrespondAt(a: LoadedFeed, b: LoadedFeed, old': map<string, string>, new': map<string, string>, n: nat)
    requires AllBounded(a, n) && AllBounded(b, n) && AgencyMapsOk(a, b, old', new')
    ensures var s := MergeRoutes(a, b, old', new', n);
            Correspond(s.ids.old', s.ids.new', s.rows.Keys,
                       set id | id in a.routes.rows && id in b.routes.rows && SameRoute(a, b, old', new', a.routes.rows[id], b.routes.rows[id]))
  {
    hide Correspond, RouteOutcomes, Plan, RowsOfPlan, RouteIds, SameRoute;
    RouteTable(a, b, old', new', n);
    RouteIdsAre(a, b, old', new');
    StageCorresponds(MergeRoutes(a, b, old', new', n), a.routes.keys, b.routes.keys, RouteIds(a, b, old', new'), n);
  }

  /**
   Routes of one id become one exactly if names and type are the same, their agencies have become one, and address and
   colors do not differ where both give them.
   */
  lemma RoutesCorrespond(st: Settings, a: LoadedFeed, b: LoadedFeed)
    ensures var m := MergeFeeds(st, a, b);
            Correspond(m.old'.route, m.new'.route, m.middle.routes.rows.Keys,
                       set id | id in a.routes.rows && id in b.routes.rows
                                && SameRoute(a, b, m.old'.agency, m.new'.agency, a.routes.rows[id], b.routes.rows[id]))
  {
    hide IsMerge, MergeFeeds, MergeRoutes, Correspond, SameRoute;
    MergeParts(st, a, b);
    var m := MergeFeeds(st, a, b);
    RoutesOf(st, a, b, m);
    RoutesCorrespondAt(a, b, m.old'.agency, m.new'.agency, m.base.zones.n);
  }

  function FirstGiven(x: string, y: string): string {
    if x != "" then x else y
  }

  /** image is the route but for its agency. */
  ghost predicate LoneRoute(r: Route, image: Route) {
    image == r.(agency := image.agency)
  }

  /** image is the new route q, with what only the old route r gives. */
  ghost predicate MergedRoute(r: Route, q: Route, image: Route) {
    && image.rest == q.rest && image.url == FirstGiven(q.url, r.url)
    && image.color == FirstGiven(q.color, r.color) && image.textColor == FirstGiven(q.textColor, r.textColor)
  }

  ghost predicate RouteCopied(a: LoadedFeed, b: LoadedFeed, s: Stage<Route>, side: Side, id: string)
    requires id in FeedOf(side, a, b).routes.rows
  {
    var out := MapOf(side, s.ids);
    && id in out && out[id] in s.rows
    && if OneImage(s.ids, id) then
         id in a.routes.rows && id in b.routes.rows && MergedRoute(a.routes.rows[id], b.routes.rows[id], s.rows[out[id]])
       else LoneRoute(FeedOf(side, a, b).routes.rows[id], s.rows[out[id]])
  }

  ghost predicate RouteOutcome(a: Feed, b: Feed, e: Entry, image: Route) {
    && (e.OnlyNew? || e.id in a.routes.rows) && (e.OnlyOld? || e.id in b.routes.rows)
    && match e {
         case OnlyOld(id, _) => LoneRoute(a.routes.rows[id], image)
         case OnlyNew(id, _) => LoneRoute(b.routes.rows[id], image)
         case Both(id) => MergedRoute(a.routes.rows[id], b.routes.rows[id], image)
       }
  }

  lemma RouteOfIs(a: LoadedFeed, b: LoadedFeed, e: Entry, old': map<string, string>, new': map<string, string>)
    requires AgencyMapsOk(a, b, old', new')
    requires (e.OnlyNew? || e.id in a.routes.rows) && (e.OnlyOld? || e.id in b.routes.rows)
    requires e.Both? ==> RoutesMerge(a, b, old', new', a.routes.rows[e.id], b.routes.rows[e.id])
    ensures RouteOutcome(a, b, e, RouteOf(a, b, e, old', new'))
  {
    hide AgencyOf;
  }

  lemma RouteRow(a: LoadedFeed, b: LoadedFeed, old': map<string, string>, new': map<string, string>, n: nat, e: Entry)
    requires AllBounded(a, n) && AllBounded(b, n) && AgencyMapsOk(a, b, old', new') && e in MergeRoutes(a, b, old', new', n).ids.plan
    ensures OutId(e) in MergeRoutes(a, b, old', new', n).rows
    ensures RouteOutcome(a, b, e, MergeRoutes(a, b, old', new', n).rows[OutId(e)])
  {
    hide RouteOf, RouteOutcome, RoutesMerge, OutId, RouteOutcomes, SourcesOk, Plan;
    var s := MergeRoutes(a, b, old', new', n);
    MappingSources(a.routes, b.routes, s.ids, RouteIds(a, b, old', new'));
    RouteRowAt(a, b, s.ids.plan, old', new', e);
    RouteOfIs(a, b, e, old', new');
  }

  lemma RouteRowAt(a: LoadedFeed, b: LoadedFeed, plan: seq<Entry>, old': map<string, string>, new': map<string, string>, e: Entry)
    requires AgencyMapsOk(a, b, old', new') && SourcesOk(a.routes, b.routes, plan) && e in plan
    ensures (e.OnlyNew? || e.id in a.routes.rows) && (e.OnlyOld? || e.id in b.routes.rows)
    ensures OutId(e) in RouteOutcomes(a, b, plan, old', new')
    ensures RouteOutcomes(a, b, plan, old', new')[OutId(e)] == RouteOf(a, b, e, old', new')
  {
    hide RouteOf, OutId;
  }

  lemma RouteCopiedAt(a: LoadedFeed, b: LoadedFeed, old': map<string, string>, new': map<string, string>, n: nat, side: Side, id: string)
    requires AllBounded(a, n) && AllBounded(b, n) && AgencyMapsOk(a, b, old', new') && id in FeedOf(side, a, b).routes.rows
    ensures RouteCopied(a, b, MergeRoutes(a, b, old', new', n), side, id)
  {
    hide OutId, OneImage, PlanOk, RouteIds, MergedRoute, LoneRoute, MergeRoutes;
    var s := MergeRoutes(a, b, old', new', n);
    var ok := RouteIds(a, b, old', new');
    var e := Image(s.ids, SetOf(a.routes.keys), SetOf(b.routes.keys), ok, side, id);
    RouteRow(a, b, old', new', n, e);
    if e.Both? {
      BothIsOneImage(s.ids, SetOf(a.routes.keys), SetOf(b.routes.keys), ok, e);
    } else {
      OnlyIsNotOneImage(s.ids, SetOf(a.routes.keys), SetOf(b.routes.keys), ok, e);
    }
  }

  lemma OnlyIsNotOneImage(ids: Mapping, a: set<string>, b: set<string>, ok: set<string>, e: Entry)
    requires MappingOk(ids, a, b, ok) && e in ids.plan && !e.Both?
    ensures !OneImage(ids, e.id)
  {
    hide OutId;
    if OneImage(ids, e.id) {
      var f := Image(ids, a, b, ok, Old, e.id);
      var g := Image(ids, a, b, ok, New, e.id);
    }
  }

  lemma RouteIsCopied(st: Settings, a: LoadedFeed, b: LoadedFeed, side: Side, id: string)
    requires id in FeedOf(side, a, b).routes.rows
    ensures RouteCopied(a, b, MergeFeeds(st, a, b).middle.routes, side, id)
  {
    hide IsMerge, MergeFeeds, MergeRoutes, RouteCopied;
    MergeParts(st, a, b);
    var m := MergeFeeds(st, a, b);
    RoutesOf(st, a, b, m);
    RouteCopiedAt(a, b, m.old'.agency, m.new'.agency, m.base.zones.n, side, id);
  }

  // ---------- services, shapes and trips ----------

  lemma ServicesOf(st: Settings, a: LoadedFeed, b: LoadedFeed, m: Merge)
    requires IsMerge(st, a, b, m)
    ensures BothBounded(a, b, m.middle.routes.ids.n) && m.middle.services == MergeServices(a, b, m.middle.routes.ids.n)
    ensures m.old'.service == m.middle.services.ids.old' && m.new'.service == m.middle.services.ids.new'
  {
    hide IsBase, MergeRoutes, MergeServices, MergeFares, MergeShapes, MergeTrips;
  }

  lemma ServicesCorrespondAt(a: LoadedFeed, b: LoadedFeed, n: nat)
    requires AllBounded(a, n) && AllBounded(b, n)
    ensures var s := MergeServices(a, b, n); Correspond(s.ids.old', s.ids.new', s.rows.Keys, {})
  {
    hide Correspond, Copies, Plan, RowsOfPlan;
    ServiceTable(a, b, n);
    StageCorresponds(MergeServices(a, b, n), a.services.keys, b.services.keys, {}, n);
  }

  /** Service periods never become one. */
  lemma ServicesCorrespond(st: Settings, a: LoadedFeed, b: LoadedFeed)
    ensures var m := MergeFeeds(st, a, b); Correspond(m.old'.service, m.new'.service, m.middle.services.rows.Keys, {})
  {
    hide IsMerge, MergeFeeds, MergeServices, Correspond;
    MergeParts(st, a, b);
    ServicesOf(st, a, b, MergeFeeds(st, a, b));
    ServicesCorrespondAt(a, b, MergeFeeds(st, a, b).middle.routes.ids.n);
  }

  lemma ShapesOf(st: Settings, a: LoadedFeed, b: LoadedFeed, m: Merge)
    requires IsMerge(st, a, b, m)
    ensures BothBounded(a, b, m.middle.fares.ids.n) && m.middle.shapes == MergeShapes(st, a, b, m.middle.fares.ids.n)
    ensures m.old'.shape == m.middle.shapes.ids.old' && m.new'.shape == m.middle.shapes.ids.new'
  {
    hide IsBase, MergeRoutes, MergeServices, MergeFares, MergeShapes, MergeTrips;
  }

  lemma ShapesCorrespondAt(st: Settings, a: LoadedFeed, b: LoadedFeed, n: nat)
    requires AllBounded(a, n) && AllBounded(b, n)
    ensures var s := MergeShapes(st, a, b, n);
            Correspond(s.ids.old', s.ids.new', s.rows.Keys,
                       set id | id in a.shapes.rows && id in b.shapes.rows
                                && st.shapeDistance(a.shapes.rows[id], b.shapes.rows[id]) <= st.largestShapeDistance)
  {
    hide Correspond, Copies, Plan, RowsOfPlan;
    ShapeTable(st, a, b, n);
    StageCorresponds(MergeShapes(st, a, b, n), a.shapes.keys, b.shapes.keys, ShapeIds(st, a, b), n);
  }

  /** Shapes of one id become one exactly if their ends are near. */
  lemma ShapesCorrespond(st: Settings, a: LoadedFeed, b: LoadedFeed)
    ensures var m := MergeFeeds(st, a, b);
            Correspond(m.old'.shape, m.new'.shape, m.middle.shapes.rows.Keys,
                       set id | id in a.shapes.rows && id in b.shapes.rows
                                && st.shapeDistance(a.shapes.rows[id], b.shapes.rows[id]) <= st.largestShapeDistance)
  {
    hide IsMerge, MergeFeeds, MergeShapes, Correspond;
    MergeParts(st, a, b);
    ShapesOf(st, a, b, MergeFeeds(st, a, b));
    ShapesCorrespondAt(st, a, b, MergeFeeds(st, a, b).middle.fares.ids.n);
  }

  lemma ShapeCopiedAt(st: Settings, a: LoadedFeed, b: LoadedFeed, n: nat, side: Side, id: string)
    requires AllBounded(a, n) && AllBounded(b, n) && id in FeedOf(side, a, b).shapes.rows
    ensures Copied(a.shapes, b.shapes, MergeShapes(st, a, b, n), side, id)
  {
    hide Copied, Copies, SourcesOk, ShapeIds;
    var s := MergeShapes(st, a, b, n);
    MappingSources(a.shapes, b.shapes, s.ids, ShapeIds(st, a, b));
    CopiesAreCopied(a.shapes, b.shapes, s, ShapeIds(st, a, b), side, id);
  }

  lemma ShapeCopied(st: Settings, a: LoadedFeed, b: LoadedFeed, side: Side, id: string)
    requires id in FeedOf(side, a, b).shapes.rows
    ensures Copied(a.shapes, b.shapes, MergeFeeds(st, a, b).middle.shapes, side, id)
  {
    hide IsMerge, MergeFeeds, MergeShapes, Copied;
    MergeParts(st, a, b);
    ShapesOf(st, a, b, MergeFeeds(st, a, b));
    ShapeCopiedAt(st, a, b, MergeFeeds(st, a, b).middle.fares.ids.n, side, id);
  }

  // ---------- zones ----------

  /** Stops of this zone have become one. */
  ghost predicate IsMergedZone(st: Settings, a: Feed, b: Feed, zone: string) {
    exists id :: id in a.stops.rows && id in b.stops.rows && SameStop(st, a.stops.rows[id], b.stops.rows[id]) && a.stops.rows[id].zone == zone
  }

  lemma KeptZonesAre(st: Settings, a: LoadedFeed, b: LoadedFeed, zone: string)
    ensures zone in ZonesKept(st, a, b) <==> IsMergedZone(st, a, b, zone)
  {
    hide SameStop, StopIds;
    StopIdsAre(st, a, b);
    var merged := Merged(a.stops.keys, b.stops.keys, StopIds(st, a, b));
    if zone in ZonesKept(st, a, b) {
      var i :| 0 <= i < |merged| && a.stops.rows[merged[i]].zone == zone;
      assert merged[i] in merged;
    }
    if id :| id in a.stops.rows && id in b.stops.rows && SameStop(st, a.stops.rows[id], b.stops.rows[id]) && a.stops.rows[id].zone == zone {
      assert id in merged;
      ZoneIsListed(a.stops, merged, id);
    }
  }

  /** A zone of stops that have become one keeps its id; any other gets an id that ends in a number beyond the counter. */
  lemma ZoneIsKeptOrFresh(st: Settings, a: LoadedFeed, b: LoadedFeed, side: Side, zone: string)
    requires IsZone(FeedOf(side, a, b), zone)
    ensures var z := ZonesOfSide(side, MergeFeeds(st, a, b).base.zones);
            && zone in z
            && if IsMergedZone(st, a, b, zone) then z[zone] == zone else PostfixNumber(z[zone]) > CounterAtZones(st, a, b)
  {
    hide IsMerge, IsMergedZone, MergeFeeds, MergeZones, ZonesKept, ZonesOnlyOld, ZonesOnlyNew, PostfixNumber;
    MergeParts(st, a, b);
    ZoneIsMapped(st, a, b, MergeFeeds(st, a, b), side, zone);
    ZonesOfMerge(st, a, b);
    KeptZonesAre(st, a, b, zone);
    ZonesKeptOrFresh(ZonesKept(st, a, b), ZonesOnlyOld(st, a, b), ZonesOnlyNew(st, a, b), CounterAtZones(st, a, b));
  }

  lemma ZoneIsMapped(st: Settings, a: LoadedFeed, b: LoadedFeed, m: Merge, side: Side, zone: string)
    requires IsMerge(st, a, b, m) && IsZone(FeedOf(side, a, b), zone)
    ensures zone in ZonesOfSide(side, m.base.zones)
  {
    hide IsBase, IsMiddle, MergeTrips, MigratedRules;
  }
}
