/** Two pairs of feeds: one whose merge changes a stop's parent station, one whose merge makes two zones one. */
module MergeExamples {
  import opened Ids
  import opened Sequences
  import opened SameId
  import opened Zones
  import opened Feeds
  import opened FeedMerges
  import opened FeedMergeProofs
  import opened StopMergeProofs
  import opened MergedFeeds

  /** All stops are at one place, all shapes alike, and letter case matters. */
  const AT_ONE_PLACE := Settings((a: Stop, b: Stop) => 0.0, 10.0, (a: Shape, b: Shape) => 0.0, 10.0, (s: string) => s)

  function StopIn(zone: string, parent: string): Stop {
    Stop("stop", zone, 0, 0.0, 0.0, parent, "")
  }

  function FeedOfStops(keys: seq<string>, rows: map<string, Stop>): Feed {
    NO_FEED.(stops := Dict(keys, rows))
  }

  lemma FeedOfStopsOk(keys: seq<string>, rows: map<string, Stop>)
    requires Distinct(keys) && rows.Keys == SetOf(keys)
    requires forall id :: id in rows ==> rows[id].parent == "" || rows[id].parent in rows
    ensures FeedOk(FeedOfStops(keys, rows))
  {
  }

  // ---------- a platform that changes its station ----------

  const STOP_NAMES := ["platform", "north", "south"]

  function Stations(ofPlatform: string): map<string, Stop> {
    map["platform" := StopIn("", ofPlatform), "north" := StopIn("", ""), "south" := StopIn("", "")]
  }

  lemma StationsOk(ofPlatform: string)
    requires ofPlatform == "north" || ofPlatform == "south"
    ensures FeedOk(FeedOfStops(STOP_NAMES, Stations(ofPlatform)))
  {
    var rows := Stations(ofPlatform);
    assert rows.Keys == {"platform", "north", "south"};
    FeedOfStopsOk(STOP_NAMES, rows);
  }

  /** Both feeds have a platform and two stations, all merged; its station is another one in the new feed. */
  lemma ParentCanChange()
    ensures var a, b := FeedOfStops(STOP_NAMES, Stations("north")), FeedOfStops(STOP_NAMES, Stations("south"));
            && FeedOk(a) && FeedOk(b) && "platform" in a.stops.rows
            && !OwnParent(a, b, MergeFeeds(AT_ONE_PLACE, a, b), Old, "platform")
  {
    hide MergeFeeds, OwnParent, KeepsParent, FeedOk;
    StationsOk("north");
    StationsOk("south");
    var a, b := FeedOfStops(STOP_NAMES, Stations("north")), FeedOfStops(STOP_NAMES, Stations("south"));
    StationChanges(a, b);
    OwnParentIff(AT_ONE_PLACE, a, b, Old, "platform");
  }

  lemma StationChanges(a: Feed, b: Feed)
    requires a.stops.rows == Stations("north") && b.stops.rows == Stations("south")
    ensures !KeepsParent(AT_ONE_PLACE, a, b, Old, "platform")
  {
    assert "platform" in StopIds(AT_ONE_PLACE, a, b);
    assert "north" != "south" by {
      assert "north"[0] != "south"[0];
    }
  }

  // ---------- two zones that become one ----------

  const OLD_ZONES := map["here" := StopIn("x_merged_1", ""), "there" := StopIn("x", "")]

  const NEW_ZONES := map["here" := StopIn("x_merged_1", "")]

  /** One stop is merged and keeps its zone; the other's zone is given the very same id. */
  lemma ZonesCanBecomeOne()
    ensures var a, b := FeedOfStops(["here", "there"], OLD_ZONES), FeedOfStops(["here"], NEW_ZONES);
            FeedOk(a) && FeedOk(b) && !Separate(ZonesKept(AT_ONE_PLACE, a, b), MergeFeeds(AT_ONE_PLACE, a, b).base.zones)
  {
    hide MergeFeeds, Separate, MergeZones;
    FeedOfStopsOk(["here", "there"], OLD_ZONES);
    FeedOfStopsOk(["here"], NEW_ZONES);
    var a, b := FeedOfStops(["here", "there"], OLD_ZONES), FeedOfStops(["here"], NEW_ZONES);
    ZonesOfExample(a, b);
    ZonesOfMerge(AT_ONE_PLACE, a, b);
    ZonesCanCollide();
  }

  lemma FilterOne(x: string, keep: set<string>, wanted: bool)
    ensures Filter([x], keep, wanted) == if (x in keep) == wanted then [x] else []
  {
    assert [x][..0] == [];
  }

  lemma FilterTwo(x: string, y: string, keep: set<string>)
    requires x in keep && y !in keep
    ensures Filter([x, y], keep, true) == [x] && Filter([x, y], keep, false) == [y]
  {
    assert [x, y][..1] == [x];
    FilterOne(x, keep, true);
    FilterOne(x, keep, false);
  }

  lemma MergedInExample(a: seq<string>, b: seq<string>, ok: set<string>)
    requires a == ["here", "there"] && b == ["here"] && ok == {"here"}
    ensures Merged(a, b, ok) == ["here"] && NotMergedA(a, b, ok) == ["there"] && NotMergedB(a, b, ok) == []
    ensures NextId(a, b, ok, 0) == 0
  {
    FilterTwo("here", "there", SetOf(b) * ok);
    FilterOne("there", SetOf(b), true);
    FilterOne("here", SetOf(a), false);
  }

  /** No id ends in a digit. */
  lemma CounterInExample(a: Feed, b: Feed)
    requires a == FeedOfStops(["here", "there"], OLD_ZONES) && b == FeedOfStops(["here"], NEW_ZONES)
    ensures FirstId(a, b) == 0 && NextId(a.agencies.keys, b.agencies.keys, AgencyIds(a, b), 0) == 0
  {
    hide StopIn, GeneratedId;
    assert ScannedIds(a) == ["here", "there"] && ScannedIds(b) == ["here"];
    assert PostfixNumber("here") == 0 && PostfixNumber("there") == 0;
    assert ["here", "there"][..1] == ["here"] && ["here"][..0] == [];
  }

  lemma ZonesOfExample(a: LoadedFeed, b: LoadedFeed)
    requires a == FeedOfStops(["here", "there"], OLD_ZONES) && b == FeedOfStops(["here"], NEW_ZONES)
    ensures ZonesKept(AT_ONE_PLACE, a, b) == ["x_merged_1"]
    ensures ZonesOnlyOld(AT_ONE_PLACE, a, b) == ["x"] && ZonesOnlyNew(AT_ONE_PLACE, a, b) == []
    ensures CounterAtZones(AT_ONE_PLACE, a, b) == 0
  {
    hide Merged, NotMergedA, NotMergedB, NextId, FirstId, AgencyIds;
    assert StopIds(AT_ONE_PLACE, a, b) == {"here"};
    MergedInExample(a.stops.keys, b.stops.keys, {"here"});
    CounterInExample(a, b);
  }

  // ---------- a route whose agency becomes ambiguous ----------

  function FeedOfAgency(id: string, routes: Dict<Route>): Feed {
    NO_FEED.(agencies := Dict([id], map[id := Agency("", "", "", "")]), routes := routes)
  }

  const NO_ROUTES: Dict<Route> := Dict([], map[])

  /** The route names no agency, as its feed has but one. */
  const ONE_ROUTE := Dict(["route"], map["route" := Route("", "", "", "", "", "", "", "")])

  lemma FeedOfAgencyOk(id: string, routes: Dict<Route>)
    requires DictOk(routes) && forall r :: r in routes.rows ==> routes.rows[r].agency == ""
    ensures FeedOk(FeedOfAgency(id, routes))
  {
    var f := FeedOfAgency(id, routes);
    assert f.agencies.rows.Keys == {id} == SetOf([id]);
  }

  /** With one more agency from the other feed, the merged route names none of two. */
  lemma AgencyCanBecomeAmbiguous(rules: map<string, seq<FareRule>>)
    ensures var a, b := FeedOfAgency("", ONE_ROUTE), FeedOfAgency("agency", NO_ROUTES);
            && FeedOk(a) && FeedOk(b)
            && (ListsRules(MergeFeeds(AT_ONE_PLACE, a, b).rules, rules) ==>
                  !FeedOk(MergedFeed(MergeFeeds(AT_ONE_PLACE, a, b), rules)))
  {
    hide MergeFeeds, FeedOk, ListsRules, MergedFeed, BlankAmbiguous;
    FeedOfAgencyOk("", ONE_ROUTE);
    FeedOfAgencyOk("agency", NO_ROUTES);
    var a, b := FeedOfAgency("", ONE_ROUTE), FeedOfAgency("agency", NO_ROUTES);
    BlankInExample(a, b);
    if ListsRules(MergeFeeds(AT_ONE_PLACE, a, b).rules, rules) {
      MergedFeedOkIff(AT_ONE_PLACE, a, b, rules);
    }
  }

  lemma BlankInExample(a: LoadedFeed, b: LoadedFeed)
    requires a == FeedOfAgency("", ONE_ROUTE) && b == FeedOfAgency("agency", NO_ROUTES)
    ensures BlankAmbiguous(a, b)
  {
    assert |"agency"| != 0 && "agency" in b.agencies.keys;
    assert a.routes.keys[0] == "route";
  }
}
