/** The parent stations and the zones of the merged stops: when they are the images of the original ones. */
module StopMergeProofs {
  import opened Wrappers
  import opened Ids
  import opened Sequences
  import opened SameId
  import opened Zones
  import opened Feeds
  import opened FeedMerges
  import opened FeedMergeProofs

  // ---------- parent stations ----------

  /** Both stops have the same parent station, and it is merged too; or neither has one. */
  predicate ParentKept(a: Stop, b: Stop, merged: set<string>) {
    a.parent == b.parent && (a.parent == "" || a.parent in merged)
  }

  /** The images of an old and a new entity are one exactly if these were merged. */
  lemma SameImageIff(a: seq<string>, b: seq<string>, ok: set<string>, n: nat, p: string, q: string)
    requires Distinct(a) && Distinct(b) && Bounded(a, n) && Bounded(b, n) && p in a && q in b
    ensures var ids := MapIds(a, b, ok, n); ids.old'[p] == ids.new'[q] <==> p == q && p in ok
  {
    hide Plan, OutId;
    var ids := MapIds(a, b, ok, n);
    var e := Image(ids, SetOf(a), SetOf(b), ok, Old, p);
    var f := Image(ids, SetOf(a), SetOf(b), ok, New, q);
    BothIff(a, b, ok, n, p);
    if p == q && p in ok {
      assert e == Both(p) && f == Both(p);
    }
  }

  lemma ImageNotBlank(a: seq<string>, b: seq<string>, ok: set<string>, n: nat, side: Side, id: string)
    requires Distinct(a) && Distinct(b) && Bounded(a, n) && Bounded(b, n) && id in (if side == Old then a else b) && id != ""
    ensures MapOf(side, MapIds(a, b, ok, n))[id] != ""
  {
    hide Plan, OutId;
    var e := Image(MapIds(a, b, ok, n), SetOf(a), SetOf(b), ok, side, id);
    BlankOutcome(a, b, ok, n, e);
  }

  /** The parent station of a merged stop, which is the image of the new stop's, is that of the old stop's as well. */
  lemma MergedParentIff(st: Settings, a: LoadedFeed, b: LoadedFeed, n: nat, stop: Stop, new': Stop, image: Stop)
    requires AllBounded(a, n) && AllBounded(b, n) && StopRefsOk(a, stop) && StopRefsOk(b, new')
    requires ParentImage(StopMapping(st, a, b, n).new', new', image)
    ensures ParentImage(StopMapping(st, a, b, n).old', stop, image) <==> ParentKept(stop, new', StopIds(st, a, b))
  {
    hide StopIds, MapIds;
    var ka, kb, ok := a.stops.keys, b.stops.keys, StopIds(st, a, b);
    if stop.parent != "" {
      ImageNotBlank(ka, kb, ok, n, Old, stop.parent);
    }
    if new'.parent != "" {
      ImageNotBlank(ka, kb, ok, n, New, new'.parent);
    }
    if stop.parent != "" && new'.parent != "" {
      SameImageIff(ka, kb, ok, n, stop.parent, new'.parent);
    }
  }

  /** The stop's image names the image of the stop's own parent station. */
  ghost predicate OwnParent(a: LoadedFeed, b: LoadedFeed, m: Merge, side: Side, id: string)
    requires id in FeedOf(side, a, b).stops.rows
  {
    var out := MapsOf(side, m).stop;
    && id in out && out[id] in m.base.stops.rows
    && ParentImage(out, FeedOf(side, a, b).stops.rows[id], m.base.stops.rows[out[id]])
  }

  /** When that is so: always but for merged old stops, and for these exactly if both have one merged parent or none. */
  predicate KeepsParent(st: Settings, a: Feed, b: Feed, side: Side, id: string) {
    side == Old && id in StopIds(st, a, b) ==> ParentKept(a.stops.rows[id], b.stops.rows[id], StopIds(st, a, b))
  }

  lemma OwnParentIff(st: Settings, a: LoadedFeed, b: LoadedFeed, side: Side, id: string)
    requires id in FeedOf(side, a, b).stops.rows
    ensures OwnParent(a, b, MergeFeeds(st, a, b), side, id) <==> KeepsParent(st, a, b, side, id)
  {
    hide IsMerge, MergeFeeds;
    MergeParts(st, a, b);
    OwnParentIn(st, a, b, MergeFeeds(st, a, b), side, id);
  }

  lemma OwnParentIn(st: Settings, a: LoadedFeed, b: LoadedFeed, m: Merge, side: Side, id: string)
    requires IsMerge(st, a, b, m) && id in FeedOf(side, a, b).stops.rows
    ensures OwnParent(a, b, m, side, id) <==> KeepsParent(st, a, b, side, id)
  {
    hide IsMiddle, MergeAgencies, MergeTrips, StopZones, SamePlace, StopMapping, StopIds;
    var n := m.base.agencies.ids.n;
    StopCarried(st, a, b, m, side, id);
    StopsAreOf(st, a, b, n);
    StopRefs(a, b, side, id);
    BothIff(a.stops.keys, b.stops.keys, StopIds(st, a, b), n, id);
    if side == Old && id in StopIds(st, a, b) {
      var out := m.base.stops.ids.old'[id];
      MergedParentIff(st, a, b, n, a.stops.rows[id], b.stops.rows[id], m.base.stops.rows[out]);
    }
  }

  lemma StopsAreOf(st: Settings, a: LoadedFeed, b: LoadedFeed, n: nat)
    requires AllBounded(a, n) && AllBounded(b, n)
    ensures MergeStops(st, a, b, n).ids == StopMapping(st, a, b, n)
    ensures StopMapping(st, a, b, n).plan == Plan(a.stops.keys, b.stops.keys, StopIds(st, a, b), n)
    ensures forall id :: id in StopIds(st, a, b) ==> id in a.stops.rows && id in b.stops.rows
  {
    hide StopOutcomes, StopZones, StopsMerge, Plan;
  }

  lemma StopRefs(a: LoadedFeed, b: LoadedFeed, side: Side, id: string)
    requires id in FeedOf(side, a, b).stops.rows
    ensures StopRefsOk(FeedOf(side, a, b), FeedOf(side, a, b).stops.rows[id])
    ensures id in b.stops.rows ==> StopRefsOk(b, b.stops.rows[id])
    ensures id in FeedOf(side, a, b).stops.keys
  {
  }

  /** All stops keep their own parent stations exactly if all pairs of merged stops have one merged parent station or none. */
  lemma OwnParentsIff(st: Settings, a: LoadedFeed, b: LoadedFeed)
    ensures (forall side, id :: id in FeedOf(side, a, b).stops.rows ==> OwnParent(a, b, MergeFeeds(st, a, b), side, id)) <==>
            (forall id :: id in StopIds(st, a, b) ==> ParentKept(a.stops.rows[id], b.stops.rows[id], StopIds(st, a, b)))
  {
    hide OwnParent, MergeFeeds, StopsMerge, ParentKept;
    forall side, id | id in FeedOf(side, a, b).stops.rows
      ensures OwnParent(a, b, MergeFeeds(st, a, b), side, id) <==> KeepsParent(st, a, b, side, id)
    {
      OwnParentIff(st, a, b, side, id);
    }
    forall id | id in StopIds(st, a, b)
      ensures id in FeedOf(Old, a, b).stops.rows
      ensures KeepsParent(st, a, b, Old, id) <==> ParentKept(a.stops.rows[id], b.stops.rows[id], StopIds(st, a, b))
    {
    }
  }

  // ---------- zones ----------

  /** The id counter when the zones' turn comes, after the agencies and the stops. */
  function CounterAtZones(st: Settings, a: Feed, b: Feed): nat {
    NextId(a.stops.keys, b.stops.keys, StopIds(st, a, b),
           NextId(a.agencies.keys, b.agencies.keys, AgencyIds(a, b), FirstId(a, b)))
  }

  /** No id generated for a zone of an unmerged stop, old or new, is the id of a zone of merged ones. */
  predicate GeneratedZonesFree(st: Settings, a: LoadedFeed, b: LoadedFeed) {
    var kept, n := ZonesKept(st, a, b), CounterAtZones(st, a, b);
    ZonesFree(kept, ZonesOnlyOld(st, a, b), n) && ZonesFree(kept, ZonesOnlyNew(st, a, b), CounterAfter(kept, ZonesOnlyOld(st, a, b), n))
  }

  /** That is exactly when the merge keeps the zones of the stops apart. */
  lemma ZonesStayApart(st: Settings, a: LoadedFeed, b: LoadedFeed)
    ensures Separate(ZonesKept(st, a, b), MergeFeeds(st, a, b).base.zones) <==> GeneratedZonesFree(st, a, b)
  {
    hide Separate, ZonesFree;
    ZonesOfMerge(st, a, b);
    SeparateIffFree(ZonesKept(st, a, b), ZonesOnlyOld(st, a, b), ZonesOnlyNew(st, a, b), CounterAtZones(st, a, b));
  }

  lemma ZonesOfMerge(st: Settings, a: LoadedFeed, b: LoadedFeed)
    ensures MergeFeeds(st, a, b).base.zones ==
            MergeZones(ZonesKept(st, a, b), ZonesOnlyOld(st, a, b), ZonesOnlyNew(st, a, b), CounterAtZones(st, a, b))
  {
    hide IsMiddle, MergeFeeds, MergeTrips, MergeZones, ZonesKept, ZonesOnlyOld, ZonesOnlyNew, StopIds;
    MergeParts(st, a, b);
  }
}
