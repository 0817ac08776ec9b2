/** The merged feed as a feed: all its references are valid, but for routes whose agency may have become ambiguous. */
module MergedFeeds {
  import opened Wrappers
  import opened Ids
  import opened Sequences
  import opened SameId
  import opened Zones
  import opened Feeds
  import opened FeedMerges
  import opened FeedMergeProofs

  function TableOf<E>(s: Stage<E>): Dict<E> {
    Dict(OutIds(s.ids.plan), s.rows)
  }

  /** The merged rules, fare by fare and in some order. */
  ghost predicate ListsRules(merged: set<MergedRule>, rules: map<string, seq<FareRule>>) {
    forall fare, r :: MergedRule(fare, r) in merged <==> fare in rules && r in rules[fare]
  }

  function WithRules(fares: map<string, Fare>, rules: map<string, seq<FareRule>>): map<string, Fare> {
    map id | id in fares :: fares[id].(rules := if id in rules then rules[id] else [])
  }

  function MergedFeed(m: Merge, rules: map<string, seq<FareRule>>): Feed {
    Feed(TableOf(m.base.agencies), TableOf(m.base.stops), TableOf(m.middle.routes), TableOf(m.middle.services),
         Dict(OutIds(m.middle.fares.ids.plan), WithRules(m.middle.fares.rows, rules)),
         TableOf(m.middle.shapes), TableOf(m.trips))
  }

  /** Any set of rules can be listed. */
  lemma {:induction false} RulesCanBeListed(merged: set<MergedRule>) returns (rules: map<string, seq<FareRule>>)
    ensures ListsRules(merged, rules)
    decreases |merged|
  {
    rules := map[];
    if merged != {} {
      var x :| x in merged;
      var before := RulesCanBeListed(merged - {x});
      rules := before[x.fare := (if x.fare in before then before[x.fare] else []) + [x.rule]];
      forall fare, r
        ensures MergedRule(fare, r) in merged <==> fare in rules && r in rules[fare]
      {
        assert MergedRule(fare, r) in merged - {x} <==> fare in before && r in before[fare];
        assert MergedRule(fare, r) == x <==> fare == x.fare && r == x.rule;
      }
    }
  }

  // ---------- tables ----------

  /** The rows are those of the registrations' outcomes. */
  ghost predicate RowsOfPlan<E>(s: Stage<E>) {
    s.rows.Keys == set e | e in s.ids.plan :: OutId(e)
  }

  lemma OutIdsAre(plan: seq<Entry>)
    ensures SetOf(OutIds(plan)) == set e | e in plan :: OutId(e)
  {
    hide OutId;
    forall e | e in plan
      ensures OutId(e) in OutIds(plan)
    {
      var i :| 0 <= i < |plan| && plan[i] == e;
      assert OutIds(plan)[i] == OutId(e);
    }
  }

  lemma TableIsOk<E>(s: Stage<E>, a: seq<string>, b: seq<string>, ok: set<string>, n: nat)
    requires Distinct(a) && Distinct(b) && Bounded(a, n) && Bounded(b, n)
    requires s.ids == MapIds(a, b, ok, n) && RowsOfPlan(s)
    ensures DictOk(TableOf(s))
  {
    hide Plan, OutId;
    OutIdsDistinct(a, b, ok, n);
    OutIdsAre(s.ids.plan);
  }

  lemma AgencyTable(a: LoadedFeed, b: LoadedFeed, n: nat)
    requires AllBounded(a, n) && AllBounded(b, n)
    ensures var s := MergeAgencies(a, b, n); RowsOfPlan(s) && DictOk(TableOf(s))
  {
    hide AgencyIds, Source, Plan;
    TableIsOk(MergeAgencies(a, b, n), a.agencies.keys, b.agencies.keys, AgencyIds(a, b), n);
  }

  lemma StopTable(st: Settings, a: LoadedFeed, b: LoadedFeed, n: nat)
    requires AllBounded(a, n) && AllBounded(b, n)
    ensures var s := MergeStops(st, a, b, n); RowsOfPlan(s) && DictOk(TableOf(s))
  {
    hide StopIds, StopZones, StopOf, Plan;
    StopEntriesOk(st, a, b, n);
    TableIsOk(MergeStops(st, a, b, n), a.stops.keys, b.stops.keys, StopIds(st, a, b), n);
  }

  lemma RouteTable(a: LoadedFeed, b: LoadedFeed, old': map<string, string>, new': map<string, string>, n: nat)
    requires AllBounded(a, n) && AllBounded(b, n) && AgencyMapsOk(a, b, old', new')
    ensures var s := MergeRoutes(a, b, old', new', n); RowsOfPlan(s) && DictOk(TableOf(s))
  {
    hide RouteIds, RouteOf, Plan;
    TableIsOk(MergeRoutes(a, b, old', new', n), a.routes.keys, b.routes.keys, RouteIds(a, b, old', new'), n);
  }

  lemma ServiceTable(a: LoadedFeed, b: LoadedFeed, n: nat)
    requires AllBounded(a, n) && AllBounded(b, n)
    ensures var s := MergeServices(a, b, n); RowsOfPlan(s) && DictOk(TableOf(s))
  {
    hide Source, Plan;
    TableIsOk(MergeServices(a, b, n), a.services.keys, b.services.keys, {}, n);
  }

  lemma FareTable(a: LoadedFeed, b: LoadedFeed, n: nat)
    requires AllBounded(a, n) && AllBounded(b, n)
    ensures var s := MergeFares(a, b, n); RowsOfPlan(s) && DictOk(TableOf(s))
  {
    hide FareIds, Source, Plan;
    TableIsOk(MergeFares(a, b, n), a.fares.keys, b.fares.keys, FareIds(a, b), n);
  }

  lemma ShapeTable(st: Settings, a: LoadedFeed, b: LoadedFeed, n: nat)
    requires AllBounded(a, n) && AllBounded(b, n)
    ensures var s := MergeShapes(st, a, b, n); RowsOfPlan(s) && DictOk(TableOf(s))
  {
    hide ShapeIds, Source, Plan;
    TableIsOk(MergeShapes(st, a, b, n), a.shapes.keys, b.shapes.keys, ShapeIds(st, a, b), n);
  }

  lemma TripTable(a: LoadedFeed, b: LoadedFeed, old': Maps, new': Maps, n: nat)
    requires AllBounded(a, n) && AllBounded(b, n) && MapsFit(a, b, old', new')
    ensures var s := MergeTrips(a, b, old', new', n); RowsOfPlan(s) && DictOk(TableOf(s))
  {
    hide TripOf, Plan;
    TableIsOk(MergeTrips(a, b, old', new', n), a.trips.keys, b.trips.keys, {}, n);
  }

  ghost predicate RowsOfBase(base: Base) {
    RowsOfPlan(base.agencies) && RowsOfPlan(base.stops)
  }

  ghost predicate RowsOfMiddle(m: Middle) {
    RowsOfPlan(m.routes) && RowsOfPlan(m.services) && RowsOfPlan(m.fares) && RowsOfPlan(m.shapes)
  }

  lemma BaseTables(st: Settings, a: LoadedFeed, b: LoadedFeed, base: Base)
    requires IsBase(st, a, b, base)
    ensures RowsOfBase(base) && DictOk(TableOf(base.agencies)) && DictOk(TableOf(base.stops))
  {
    hide RowsOfPlan, DictOk, MergeAgencies, MergeStops, AllBounded;
    AgencyTable(a, b, FirstId(a, b));
    StopTable(st, a, b, base.agencies.ids.n);
  }

  lemma MiddleTables(st: Settings, a: LoadedFeed, b: LoadedFeed, agencies: Mapping, n: nat, m: Middle)
    requires BothBounded(a, b, n) && AgencyMapsOk(a, b, agencies.old', agencies.new') && IsMiddle(st, a, b, agencies, n, m)
    ensures RowsOfMiddle(m) && DictOk(TableOf(m.routes)) && DictOk(TableOf(m.services)) && DictOk(TableOf(m.fares)) && DictOk(TableOf(m.shapes))
  {
    hide RowsOfPlan, DictOk, MergeRoutes, MergeServices, MergeFares, MergeShapes, AllBounded;
    RouteTable(a, b, agencies.old', agencies.new', n);
    ServiceTable(a, b, m.routes.ids.n);
    FareTable(a, b, m.services.ids.n);
    ShapeTable(st, a, b, m.fares.ids.n);
  }

  lemma MergedTables(st: Settings, a: LoadedFeed, b: LoadedFeed, m: Merge, rules: map<string, seq<FareRule>>)
    requires IsMerge(st, a, b, m)
    ensures TablesOk(MergedFeed(m, rules)) && RowsOfBase(m.base) && RowsOfMiddle(m.middle)
  {
    hide IsBase, IsMiddle, RowsOfPlan, RowsOfBase, RowsOfMiddle, AllBounded, MergeTrips;
    BaseTables(st, a, b, m.base);
    MiddleTables(st, a, b, m.base.agencies.ids, m.base.zones.n, m.middle);
    TripTable(a, b, m.old', m.new', m.middle.shapes.ids.n);
  }

  /** Every row of a merged table is the image of one of the originals. */
  lemma RowHasSource<E>(s: Stage<E>, a: set<string>, b: set<string>, ok: set<string>, out: string) returns (side: Side, id: string)
    requires MappingOk(s.ids, a, b, ok) && RowsOfPlan(s) && out in s.rows
    ensures IsImage(s.ids, side, id, out) && id in if side == Old then a else b
  {
    hide OutId, MappingOk;
    var e :| e in s.ids.plan && OutId(e) == out;
    side, id := if e.OnlyNew? then New else Old, e.id;
    EntryIsImage(s.ids, a, b, ok, side, e);
  }

  lemma EntryIsImage(ids: Mapping, a: set<string>, b: set<string>, ok: set<string>, side: Side, e: Entry)
    requires MappingOk(ids, a, b, ok) && e in ids.plan && (if side == Old then !e.OnlyNew? else !e.OnlyOld?)
    ensures IsImage(ids, side, e.id, OutId(e)) && e.id in if side == Old then a else b
  {
    hide OutId;
  }

  // ---------- stops ----------

  lemma StopHasSource(st: Settings, a: LoadedFeed, b: LoadedFeed, m: Merge, out: string) returns (side: Side, id: string)
    requires IsMerge(st, a, b, m) && RowsOfBase(m.base) && out in m.base.stops.rows
    ensures id in FeedOf(side, a, b).stops.rows && id in MapsOf(side, m).stop && MapsOf(side, m).stop[id] == out
  {
    hide IsMiddle, MergeAgencies, StopZones, RowsOfPlan, StopIds, MappingOk, MergeStops, MergeTrips;
    side, id := RowHasSource(m.base.stops, SetOf(a.stops.keys), SetOf(b.stops.keys), StopIds(st, a, b), out);
  }

  lemma StopRefsMerged(st: Settings, a: LoadedFeed, b: LoadedFeed, m: Merge, merged: Feed, out: string)
    requires IsMerge(st, a, b, m) && RowsOfBase(m.base) && out in m.base.stops.rows && merged.stops.rows == m.base.stops.rows
    ensures StopRefsOk(merged, m.base.stops.rows[out])
  {
    hide IsMerge, RowsOfBase, SamePlace;
    var side, id := StopHasSource(st, a, b, m, out);
    StopCarried(st, a, b, m, side, id);
    var stop, image := FeedOf(side, a, b).stops.rows[id], m.base.stops.rows[out];
    if side == Old && Both(id) in m.base.stops.ids.plan {
      ParentIsMerged(st, a, b, m, New, id, image);
    } else {
      ParentIsMerged(st, a, b, m, side, id, image);
    }
  }

  lemma ParentIsMerged(st: Settings, a: LoadedFeed, b: LoadedFeed, m: Merge, side: Side, id: string, image: Stop)
    requires IsMerge(st, a, b, m) && id in FeedOf(side, a, b).stops.rows
    requires ParentImage(MapOf(side, m.base.stops.ids), FeedOf(side, a, b).stops.rows[id], image)
    ensures image.parent == "" || image.parent in m.base.stops.rows
  {
    hide IsBase, IsMiddle, MapsFit, MergeTrips, MigratedRules;
    var f := FeedOf(side, a, b);
    var parent := f.stops.rows[id].parent;
    assert StopRefsOk(f, f.stops.rows[id]);
    if parent != "" {
      StopCarried(st, a, b, m, side, parent);
    }
  }

  // ---------- trips ----------

  lemma TripRefsMerged(st: Settings, a: LoadedFeed, b: LoadedFeed, m: Merge, rules: map<string, seq<FareRule>>, out: string)
    requires IsMerge(st, a, b, m) && OneToOne(m.trips.ids, m.trips.rows.Keys) && out in m.trips.rows
    requires m.trips.ids.old'.Keys == a.trips.rows.Keys && m.trips.ids.new'.Keys == b.trips.rows.Keys
    ensures TripRefsOk(MergedFeed(m, rules), m.trips.rows[out])
  {
    hide IsMerge, OneToOne, Carried, TripRefsOk, IsImage;
    var side, id := TripHasSource(a, b, m, out);
    TripCarried(st, a, b, m, side, id);
    ImageRefsOk(st, a, b, m, rules, side, id);
  }

  lemma TripHasSource(a: LoadedFeed, b: LoadedFeed, m: Merge, out: string) returns (side: Side, id: string)
    requires OneToOne(m.trips.ids, m.trips.rows.Keys) && out in m.trips.rows
    requires m.trips.ids.old'.Keys == a.trips.rows.Keys && m.trips.ids.new'.Keys == b.trips.rows.Keys
    ensures id in FeedOf(side, a, b).trips.rows && id in MapOf(side, m.trips.ids) && MapOf(side, m.trips.ids)[id] == out
  {
    side, id :| IsImage(m.trips.ids, side, id, out);
  }

  lemma ImageRefsOk(st: Settings, a: LoadedFeed, b: LoadedFeed, m: Merge, rules: map<string, seq<FareRule>>, side: Side, id: string)
    requires id in FeedOf(side, a, b).trips.rows && Carried(st, a, b, m, side, id)
    ensures TripRefsOk(MergedFeed(m, rules), m.trips.rows[MapOf(side, m.trips.ids)[id]])
  {
    hide StopPreserved, RoutePreserved, AgencyKept, ShapePreserved, StopTimePreserved;
  }

  // ---------- fare rules ----------

  lemma ZoneIsMerged(st: Settings, a: LoadedFeed, b: LoadedFeed, m: Merge, merged: Feed, side: Side, zone: string, image: string)
    requires IsMerge(st, a, b, m) && merged.stops.rows == m.base.stops.rows
    requires (zone == "" || IsZone(FeedOf(side, a, b), zone)) && ZoneImage(ZonesOfSide(side, m.base.zones), zone, image)
    ensures image == "" || IsZone(merged, image)
  {
    hide IsMerge, SamePlace;
    var f := FeedOf(side, a, b);
    if zone != "" {
      var id :| id in f.stops.rows && f.stops.rows[id].zone == zone;
      StopCarried(st, a, b, m, side, id);
      assert merged.stops.rows[MapsOf(side, m).stop[id]].zone == image;
    }
  }

  lemma RuleRefsMerged(st: Settings, a: LoadedFeed, b: LoadedFeed, m: Merge, merged: Feed, side: Side, fare: string, rule: FareRule, r: MergedRule)
    requires IsMerge(st, a, b, m) && HasRule(FeedOf(side, a, b), fare, rule)
    requires merged.stops.rows == m.base.stops.rows && merged.routes.rows == m.middle.routes.rows
    requires IsRuleImage(MapsOf(side, m), ZonesOfSide(side, m.base.zones), fare, rule, r)
    ensures RuleRefsOk(merged, r.rule)
  {
    hide IsMerge, IsZone, ZoneImage;
    var f := FeedOf(side, a, b);
    RuleRefs(f, fare, rule);
    ZoneIsMerged(st, a, b, m, merged, side, rule.origin, r.rule.origin);
    ZoneIsMerged(st, a, b, m, merged, side, rule.destination, r.rule.destination);
    ZoneIsMerged(st, a, b, m, merged, side, rule.contains, r.rule.contains);
    if rule.route != "" {
      RouteCarried(st, a, b, m, side, rule.route);
    }
  }

  lemma RuleRefs(f: LoadedFeed, fare: string, rule: FareRule)
    requires HasRule(f, fare, rule)
    ensures RuleRefsOk(f, rule)
  {
  }

  lemma RulesMerged(st: Settings, a: LoadedFeed, b: LoadedFeed, m: Merge, merged: Feed, r: MergedRule)
    requires IsMerge(st, a, b, m) && r in m.rules
    requires merged.stops.rows == m.base.stops.rows && merged.routes.rows == m.middle.routes.rows
    ensures RuleRefsOk(merged, r.rule)
  {
    hide RuleRefsOk, HasRule, IsRuleImage, IsBase, IsMiddle, MigratedRules;
    RulesOfFeed(a, m.old', m.base.zones.a, r);
    RulesOfFeed(b, m.new', m.base.zones.b, r);
    if fare, rule :| HasRule(a, fare, rule) && IsRuleImage(m.old', m.base.zones.a, fare, rule, r) {
      RuleRefsMerged(st, a, b, m, merged, Old, fare, rule, r);
    } else {
      var fare, rule :| HasRule(b, fare, rule) && IsRuleImage(m.new', m.base.zones.b, fare, rule, r);
      RuleRefsMerged(st, a, b, m, merged, New, fare, rule, r);
    }
  }

  // ---------- routes and agencies ----------

  /** Whether the only agency of f keeps its blank id in the merge with g. */
  predicate KeepsBlank(f: LoadedFeed, g: LoadedFeed) {
    f.agencies.keys == [""] && ("" in g.agencies.keys ==> AgenciesMerge(f.agencies.rows[""], g.agencies.rows[""]))
  }

  /**
   The only agency of f, which has routes, has a blank id and keeps it, and g has another agency.  The routes of f
   then name no agency in a feed of several ones.
   */
  predicate BlankAmbiguous(f: LoadedFeed, g: LoadedFeed) {
    && KeepsBlank(f, g) && f.routes.keys != []
    && (exists id :: id in g.agencies.keys && id != "")
  }

  /** The same seen from the merge: how many agencies there are if the blank id, that of the only one of a feed, is kept. */
  lemma AgencyCount(a: seq<string>, b: seq<string>, ok: set<string>, n: nat, side: Side, others: seq<string>)
    requires Distinct(a) && Distinct(b)
    requires if side == Old then a == [""] && others == b else b == [""] && others == a
    requires "" in others ==> "" in ok
    ensures |Plan(a, b, ok, n)| == 1 <==> forall id :: id in others ==> id == ""
  {
    hide Plan, Merged, NotMergedA, NotMergedB;
    Conservation(a, b, ok, n);
    NotMergedAre(a, b, ok);
    var rest := if side == Old then NotMergedB(a, b, ok) else NotMergedA(a, b, ok);
    if rest != [] {
      assert rest[0] in rest;
      assert rest[0] in others && rest[0] != "";
    }
    if id :| id in others && id != "" {
      assert id in rest;
    }
  }

  lemma NotMergedAre(a: seq<string>, b: seq<string>, ok: set<string>)
    requires Distinct(a) && Distinct(b)
    ensures forall x :: x in NotMergedA(a, b, ok) <==> x in a && !(x in b && x in ok)
    ensures forall x :: x in NotMergedB(a, b, ok) <==> x in b && !(x in a && x in ok)
  {
    NotMergedBDistinct(a, b, ok);
  }

  /** An agency's image has a blank id exactly if the agency has one and keeps it. */
  lemma BlankImageIff(a: LoadedFeed, b: LoadedFeed, n: nat, side: Side, id: string)
    requires AllBounded(a, n) && AllBounded(b, n) && id in FeedOf(side, a, b).agencies.rows
    ensures MapOf(side, MergeAgencies(a, b, n).ids)[id] == "" <==>
            id == "" && (id in a.agencies.rows && id in b.agencies.rows ==> AgenciesMerge(a.agencies.rows[id], b.agencies.rows[id]))
  {
    hide OutId, Plan;
    var s := MergeAgencies(a, b, n);
    var ka, kb, ok := a.agencies.keys, b.agencies.keys, AgencyIds(a, b);
    var e := Image(s.ids, SetOf(ka), SetOf(kb), ok, side, id);
    BlankOutcome(ka, kb, ok, n, e);
    BothIff(ka, kb, ok, n, id);
    if Both(id) in s.ids.plan {
      assert e == Both(id);
    }
  }

  lemma OnlyAgency(f: LoadedFeed, id: string)
    requires id in f.routes.rows
    ensures RouteRefsOk(f, f.routes.rows[id]) && f.routes.keys != []
    ensures AgencyOf(f, f.routes.rows[id]) == "" <==> f.agencies.keys == [""]
  {
    assert id in f.routes.keys;
    assert RouteRefsOk(f, f.routes.rows[id]);
  }

  lemma AgencyOfImage(st: Settings, a: LoadedFeed, b: LoadedFeed, m: Merge, side: Side, id: string)
    requires IsMerge(st, a, b, m) && id in FeedOf(side, a, b).routes.rows && RouteRefsOk(FeedOf(side, a, b), FeedOf(side, a, b).routes.rows[id])
    ensures var f, out := FeedOf(side, a, b), MapsOf(side, m).route;
            && id in out && out[id] in m.middle.routes.rows && m.middle.routes.rows[out[id]].agency in m.base.agencies.rows
            && AgencyOf(f, f.routes.rows[id]) in MapsOf(side, m).agency
            && m.middle.routes.rows[out[id]].agency == MapsOf(side, m).agency[AgencyOf(f, f.routes.rows[id])]
  {
    hide IsMerge;
    RouteCarried(st, a, b, m, side, id);
  }

  lemma RouteRefsIff(f: LoadedFeed, g: LoadedFeed, merged: Feed, r: Route)
    requires f.routes.keys != [] && r.agency in merged.agencies.rows && (r.agency == "" <==> KeepsBlank(f, g))
    requires r.agency == "" ==> (|merged.agencies.keys| == 1 <==> forall id :: id in g.agencies.keys ==> id == "")
    ensures RouteRefsOk(merged, r) <==> !BlankAmbiguous(f, g)
  {
    hide AgenciesMerge, FeedOk;
  }

  lemma BlankImageMeans(a: LoadedFeed, b: LoadedFeed, n: nat, side: Side, id: string)
    requires AllBounded(a, n) && AllBounded(b, n) && id in FeedOf(side, a, b).agencies.rows
    requires id == "" <==> FeedOf(side, a, b).agencies.keys == [""]
    ensures MapOf(side, MergeAgencies(a, b, n).ids)[id] == "" <==> KeepsBlank(FeedOf(side, a, b), FeedOf(side, b, a))
  {
    hide AgenciesMerge, MergeAgencies, AllBounded;
    var f, g := FeedOf(side, a, b), FeedOf(side, b, a);
    BlankImageIff(a, b, n, side, id);
    if id in g.agencies.rows {
      AgenciesMergeSymmetric(f.agencies.rows[id], g.agencies.rows[id]);
    }
  }

  lemma CountIfBlank(a: LoadedFeed, b: LoadedFeed, n: nat, side: Side)
    requires AllBounded(a, n) && AllBounded(b, n) && KeepsBlank(FeedOf(side, a, b), FeedOf(side, b, a))
    ensures |TableOf(MergeAgencies(a, b, n)).keys| == 1 <==> forall id :: id in FeedOf(side, b, a).agencies.keys ==> id == ""
  {
    hide AgenciesMerge, MergeAgencies, Plan;
    var f, g := FeedOf(side, a, b), FeedOf(side, b, a);
    assert "" in f.agencies.keys;
    AgenciesAre(a, b, n);
    if "" in g.agencies.rows {
      AgenciesMergeSymmetric(f.agencies.rows[""], g.agencies.rows[""]);
    }
    AgencyCount(a.agencies.keys, b.agencies.keys, AgencyIds(a, b), n, side, g.agencies.keys);
  }

  /** The image of a route is ambiguous exactly if its feed's only agency is. */
  lemma RouteAmbiguousIff(st: Settings, a: LoadedFeed, b: LoadedFeed, m: Merge, merged: Feed, side: Side, id: string)
    requires IsMerge(st, a, b, m) && id in FeedOf(side, a, b).routes.rows && id in MapsOf(side, m).route
    requires merged.agencies == TableOf(m.base.agencies) && MapsOf(side, m).route[id] in m.middle.routes.rows
    ensures RouteRefsOk(merged, m.middle.routes.rows[MapsOf(side, m).route[id]]) <==>
            !BlankAmbiguous(FeedOf(side, a, b), FeedOf(side, b, a))
  {
    hide IsMiddle, MergeAgencies, MergeStops, StopZones, MergeTrips, BlankAmbiguous, KeepsBlank;
    var f, g, n := FeedOf(side, a, b), FeedOf(side, b, a), FirstId(a, b);
    OnlyAgency(f, id);
    AgencyOfImage(st, a, b, m, side, id);
    BlankImageMeans(a, b, n, side, AgencyOf(f, f.routes.rows[id]));
    if KeepsBlank(f, g) {
      CountIfBlank(a, b, n, side);
    }
    RouteRefsIff(f, g, merged, m.middle.routes.rows[MapsOf(side, m).route[id]]);
  }

  lemma AgenciesMergeSymmetric(x: Agency, y: Agency)
    ensures AgenciesMerge(x, y) <==> AgenciesMerge(y, x)
  {
  }

  lemma AgenciesAre(a: LoadedFeed, b: LoadedFeed, n: nat)
    requires AllBounded(a, n) && AllBounded(b, n)
    ensures |TableOf(MergeAgencies(a, b, n)).keys| == |Plan(a.agencies.keys, b.agencies.keys, AgencyIds(a, b), n)|
    ensures "" in AgencyIds(a, b) <==> "" in a.agencies.rows && "" in b.agencies.rows && AgenciesMerge(a.agencies.rows[""], b.agencies.rows[""])
  {
    hide Plan;
  }

  // ---------- the merged feed ----------

  lemma RoutesMerged(st: Settings, a: LoadedFeed, b: LoadedFeed, m: Merge, merged: Feed)
    requires IsMerge(st, a, b, m) && RowsOfMiddle(m.middle) && merged.agencies == TableOf(m.base.agencies)
    ensures (forall out :: out in m.middle.routes.rows ==> RouteRefsOk(merged, m.middle.routes.rows[out])) <==>
            !BlankAmbiguous(a, b) && !BlankAmbiguous(b, a)
  {
    hide IsMerge, RowsOfMiddle, RouteRefsOk, BlankAmbiguous;
    if !BlankAmbiguous(a, b) && !BlankAmbiguous(b, a) {
      forall out | out in m.middle.routes.rows
        ensures RouteRefsOk(merged, m.middle.routes.rows[out])
      {
        var side, id := RouteHasSource(st, a, b, m, out);
        RouteAmbiguousIff(st, a, b, m, merged, side, id);
      }
    }
    AmbiguousRoute(st, a, b, m, merged, Old);
    AmbiguousRoute(st, a, b, m, merged, New);
  }

  lemma RouteHasSource(st: Settings, a: LoadedFeed, b: LoadedFeed, m: Merge, out: string) returns (side: Side, id: string)
    requires IsMerge(st, a, b, m) && RowsOfMiddle(m.middle) && out in m.middle.routes.rows
    ensures id in FeedOf(side, a, b).routes.rows && id in MapsOf(side, m).route && MapsOf(side, m).route[id] == out
  {
    hide IsBase, MergeServices, MergeFares, MergeShapes, RowsOfPlan, RouteIds, MappingOk, MergeRoutes, MergeTrips;
    var agencies := m.base.agencies.ids;
    side, id := RowHasSource(m.middle.routes, SetOf(a.routes.keys), SetOf(b.routes.keys), RouteIds(a, b, agencies.old', agencies.new'), out);
  }

  lemma AmbiguousRoute(st: Settings, a: LoadedFeed, b: LoadedFeed, m: Merge, merged: Feed, side: Side)
    requires IsMerge(st, a, b, m) && merged.agencies == TableOf(m.base.agencies)
    ensures BlankAmbiguous(FeedOf(side, a, b), FeedOf(side, b, a)) ==>
              exists out :: out in m.middle.routes.rows && !RouteRefsOk(merged, m.middle.routes.rows[out])
  {
    hide IsMerge, RouteRefsOk, RoutePreserved, AgencyKept;
    var f := FeedOf(side, a, b);
    if BlankAmbiguous(f, FeedOf(side, b, a)) {
      var id := f.routes.keys[0];
      assert id in f.routes.keys;
      RouteCarried(st, a, b, m, side, id);
      RouteAmbiguousIff(st, a, b, m, merged, side, id);
    }
  }

  /** All references of the merged feed are valid, exactly if no route's only agency becomes ambiguous. */
  lemma MergedFeedOkIff(st: Settings, a: LoadedFeed, b: LoadedFeed, rules: map<string, seq<FareRule>>)
    requires ListsRules(MergeFeeds(st, a, b).rules, rules)
    ensures FeedOk(MergedFeed(MergeFeeds(st, a, b), rules)) <==> !BlankAmbiguous(a, b) && !BlankAmbiguous(b, a)
  {
    hide IsMerge, MergeFeeds, OneToOne, FeedOk, BlankAmbiguous;
    MergeParts(st, a, b);
    TripsCorrespond(st, a, b);
    MergedOkIff(st, a, b, MergeFeeds(st, a, b), rules);
  }

  lemma MergedOkIff(st: Settings, a: LoadedFeed, b: LoadedFeed, m: Merge, rules: map<string, seq<FareRule>>)
    requires IsMerge(st, a, b, m) && ListsRules(m.rules, rules) && OneToOne(m.trips.ids, m.trips.rows.Keys)
    requires m.trips.ids.old'.Keys == a.trips.rows.Keys && m.trips.ids.new'.Keys == b.trips.rows.Keys
    ensures FeedOk(MergedFeed(m, rules)) <==> !BlankAmbiguous(a, b) && !BlankAmbiguous(b, a)
  {
    hide IsMerge, OneToOne, TablesOk, RowsOfBase, RowsOfMiddle, StopRefsOk, RouteRefsOk, TripRefsOk, RuleRefsOk, BlankAmbiguous, OutIds;
    var merged := MergedFeed(m, rules);
    MergedTables(st, a, b, m, rules);
    RoutesMerged(st, a, b, m, merged);
    forall out | out in m.base.stops.rows
      ensures StopRefsOk(merged, m.base.stops.rows[out])
    {
      StopRefsMerged(st, a, b, m, merged, out);
    }
    forall out | out in m.trips.rows
      ensures TripRefsOk(merged, m.trips.rows[out])
    {
      TripRefsMerged(st, a, b, m, rules, out);
    }
    forall fare, r | fare in merged.fares.rows && r in merged.fares.rows[fare].rules
      ensures RuleRefsOk(merged, r)
    {
      assert MergedRule(fare, r) in m.rules;
      RulesMerged(st, a, b, m, merged, MergedRule(fare, r));
    }
  }
}
