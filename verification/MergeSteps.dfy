/** What the loops of the feed merger amount to, step by step. */
module MergeSteps {
  import opened Wrappers
  import opened Ids
  import opened Sequences
  import opened SameId
  import opened Calendars
  import opened Zones
  import opened Feeds
  import opened FeedMerges

  // ---------- what a run of registrations amounts to ----------

  /** The merge map of the old feed after the registrations so far. */
  function OldMapOf(plan: seq<Entry>): map<string, string> {
    if plan == [] then map[]
    else
      var m, e := OldMapOf(plan[..|plan| - 1]), plan[|plan| - 1];
      if e.OnlyNew? then m else m[e.id := OutId(e)]
  }

  function NewMapOf(plan: seq<Entry>): map<string, string> {
    if plan == [] then map[]
    else
      var m, e := NewMapOf(plan[..|plan| - 1]), plan[|plan| - 1];
      if e.OnlyOld? then m else m[e.id := OutId(e)]
  }

  ghost predicate Migrates<E>(plan: seq<Entry>, migrate: Entry --> E) {
    forall e :: e in plan ==> migrate.requires(e)
  }

  /** The rows of the merged table after adding the outcomes of a part of the plan. */
  function AddRows<E>(rows: map<string, E>, part: seq<Entry>, migrate: Entry --> E): map<string, E>
    requires Migrates(part, migrate)
  {
    if part == [] then rows
    else
      var init, last := part[..|part| - 1], part[|part| - 1];
      AddRows(rows, init, migrate)[OutId(last) := migrate(last)]
  }

  /** rows has the migrated entities, each under its id, and no others. */
  ghost predicate AreRows<E>(plan: seq<Entry>, migrate: Entry --> E, rows: map<string, E>) {
    && Migrates(plan, migrate)
    && (forall e :: e in plan ==> OutId(e) in rows && rows[OutId(e)] == migrate(e))
    && (forall id :: id in rows ==> exists e :: e in plan && OutId(e) == id)
  }

  lemma {:induction false} OldMapOfIs(plan: seq<Entry>)
    requires forall e, f :: e in plan && f in plan && !e.OnlyNew? && !f.OnlyNew? && e.id == f.id ==> e == f
    ensures OldMapOf(plan) == OldMap(plan)
    decreases |plan|
  {
    if plan != [] {
      var init, last := plan[..|plan| - 1], plan[|plan| - 1];
      assert forall e :: e in plan <==> e in init || e == last;
      OldMapOfIs(init);
    }
  }

  lemma {:induction false} NewMapOfIs(plan: seq<Entry>)
    requires forall e, f :: e in plan && f in plan && !e.OnlyOld? && !f.OnlyOld? && e.id == f.id ==> e == f
    ensures NewMapOf(plan) == NewMap(plan)
    decreases |plan|
  {
    if plan != [] {
      var init, last := plan[..|plan| - 1], plan[|plan| - 1];
      assert forall e :: e in plan <==> e in init || e == last;
      NewMapOfIs(init);
    }
  }

  lemma {:induction false} AddRowsAt<E>(rows: map<string, E>, part: seq<Entry>, migrate: Entry --> E)
    requires Migrates(part, migrate)
    requires forall e, f :: e in part && f in part && OutId(e) == OutId(f) ==> e == f
    ensures forall id :: id in AddRows(rows, part, migrate) <==> id in rows || exists e :: e in part && OutId(e) == id
    ensures forall e :: e in part ==> AddRows(rows, part, migrate)[OutId(e)] == migrate(e)
    decreases |part|
  {
    if part != [] {
      var init, last := part[..|part| - 1], part[|part| - 1];
      assert forall e :: e in part <==> e in init || e == last;
      AddRowsAt(rows, init, migrate);
    }
  }

  lemma AddRowsAre<E>(plan: seq<Entry>, migrate: Entry --> E, rows: map<string, E>)
    requires AreRows(plan, migrate, rows)
    requires forall e, f :: e in plan && f in plan && OutId(e) == OutId(f) ==> e == f
    ensures AddRows(map[], plan, migrate) == rows
  {
    AddRowsAt(map[], plan, migrate);
  }

  lemma {:induction false} AddRowsConcat<E>(rows: map<string, E>, r: seq<Entry>, s: seq<Entry>, migrate: Entry --> E)
    requires Migrates(r, migrate) && Migrates(s, migrate)
    ensures Migrates(r + s, migrate)
    ensures AddRows(rows, r + s, migrate) == AddRows(AddRows(rows, r, migrate), s, migrate)
    decreases |s|
  {
    assert forall e :: e in r + s <==> e in r || e in s;
    if s == [] {
      assert r + s == r;
    } else {
      var init := s[..|s| - 1];
      assert (r + s)[..|r + s| - 1] == r + init;
      AddRowsConcat(rows, r, init, migrate);
    }
  }

  /** What is registered at the end is the mapping of the two tables, with the rows expected. */
  lemma StageIs<E>(a: seq<string>, b: seq<string>, ok: set<string>, n: nat, migrate: Entry --> E, rows: map<string, E>)
    requires Distinct(a) && Distinct(b) && Bounded(a, n) && Bounded(b, n)
    requires AreRows(Plan(a, b, ok, n), migrate, rows)
    ensures OldMapOf(Plan(a, b, ok, n)) == MapIds(a, b, ok, n).old'
    ensures NewMapOf(Plan(a, b, ok, n)) == MapIds(a, b, ok, n).new'
    ensures AddRows(map[], Plan(a, b, ok, n), migrate) == rows
  {
    var plan := Plan(a, b, ok, n);
    PlanIsOk(a, b, ok, n);
    OldMapOfIs(plan);
    NewMapOfIs(plan);
    AddRowsAre(plan, migrate, rows);
  }

  // ---------- the search for the largest number ----------

  lemma {:induction false} LargestPostfixConcat(s: seq<string>, t: seq<string>)
    ensures LargestPostfix(s + t) == Max(LargestPostfix(s), LargestPostfix(t))
    decreases |t|
  {
    if t == [] {
      assert s + t == s;
    } else {
      LargestPostfixConcat(s, t[..|t| - 1]);
      assert (s + t)[..|s + t| - 1] == s + t[..|t| - 1];
    }
  }

  method LargestOf(ids: seq<string>, start: nat) returns (largest: nat)
    ensures largest == Max(start, LargestPostfix(ids))
  {
    largest := start;
    for i := 0 to |ids|
      invariant largest == Max(start, LargestPostfix(ids[..i]))
    {
      assert ids[..i + 1][..i] == ids[..i];
      largest := Max(largest, PostfixNumber(ids[i]));
    }
    assert ids[..|ids|] == ids;
  }

  /** No id of the feed ends in a larger number. */
  method FindLargestIdPostfixNumber(f: Feed) returns (largest: nat)
    ensures largest == LargestPostfix(ScannedIds(f))
    ensures AllBounded(f, largest)
  {
    largest := LargestOf(f.agencies.keys, 0);
    largest := LargestOf(f.stops.keys, largest);
    largest := LargestOf(f.routes.keys, largest);
    largest := LargestOf(f.trips.keys, largest);
    largest := LargestOf(f.services.keys, largest);
    largest := LargestOf(f.fares.keys, largest);
    largest := LargestOf(f.shapes.keys, largest);
    LargestOfSeven(f);
    LargestPostfixBounds(ScannedIds(f));
    ScannedBounds(f, largest);
  }

  lemma LargestOfSeven(f: Feed)
    ensures LargestPostfix(ScannedIds(f)) ==
            Max(Max(Max(Max(Max(Max(LargestPostfix(f.agencies.keys), LargestPostfix(f.stops.keys)), LargestPostfix(f.routes.keys)),
                            LargestPostfix(f.trips.keys)), LargestPostfix(f.services.keys)), LargestPostfix(f.fares.keys)),
                LargestPostfix(f.shapes.keys))
  {
    var s := f.agencies.keys;
    LargestPostfixConcat(s, f.stops.keys);
    s := s + f.stops.keys;
    LargestPostfixConcat(s, f.routes.keys);
    s := s + f.routes.keys;
    LargestPostfixConcat(s, f.trips.keys);
    s := s + f.trips.keys;
    LargestPostfixConcat(s, f.services.keys);
    s := s + f.services.keys;
    LargestPostfixConcat(s, f.fares.keys);
    s := s + f.fares.keys;
    LargestPostfixConcat(s, f.shapes.keys);
  }

  // ---------- the parts of the stop table ----------

  ghost function StopOfEntry(a: Feed, b: Feed, ids: Mapping, z: BothZones): (f: Entry --> Stop)
    ensures forall e :: StopEntryOk(a, b, e, ids.old', ids.new', z) ==>
              f.requires(e) && f(e) == StopOf(a, b, e, ids.old', ids.new', z)
  {
    (e: Entry) requires StopEntryOk(a, b, e, ids.old', ids.new', z) => StopOf(a, b, e, ids.old', ids.new', z)
  }

  function PartZones(stops: Dict<Stop>, part: seq<Entry>): seq<string>
    requires forall e :: e in part ==> e.id in stops.rows
  {
    seq(|part|, i requires 0 <= i < |part| => stops.rows[part[i].id].zone)
  }

  ghost predicate ParentKnown(stop: Stop, m: map<string, string>) {
    stop.parent == "" || stop.parent in m
  }

  /** The merged stop that e stands for, and what it becomes: its parent station is that of the new stop. */
  ghost predicate SettlesMerged(a: Dict<Stop>, b: Dict<Stop>, m: map<string, string>, stopOf: Entry --> Stop, e: Entry) {
    && e.id in a.rows && e.id in b.rows && a.rows[e.id].zone == b.rows[e.id].zone && ParentKnown(b.rows[e.id], m)
    && stopOf.requires(e)
    && stopOf(e) == b.rows[e.id].(parent := if b.rows[e.id].parent == "" then "" else m[b.rows[e.id].parent])
  }

  ghost predicate AllSettleMerged(a: Dict<Stop>, b: Dict<Stop>, m: map<string, string>, stopOf: Entry --> Stop, part: seq<Entry>) {
    forall e {:trigger e in part} :: e in part ==> SettlesMerged(a, b, m, stopOf, e)
  }

  /** The unmerged stop that e stands for, and what it becomes through the final zone map and the merge map. */
  ghost predicate SettlesUnmerged(stops: Dict<Stop>, z: ZoneMap, m: map<string, string>, stopOf: Entry --> Stop, e: Entry) {
    && e.id in stops.rows && stops.rows[e.id].zone in z && ParentKnown(stops.rows[e.id], m)
    && stopOf.requires(e)
    && stopOf(e) == stops.rows[e.id].(zone := z[stops.rows[e.id].zone],
                                      parent := if stops.rows[e.id].parent == "" then "" else m[stops.rows[e.id].parent])
  }

  ghost predicate AllSettleUnmerged(stops: Dict<Stop>, z: ZoneMap, m: map<string, string>, stopOf: Entry --> Stop, part: seq<Entry>) {
    forall e {:trigger e in part} :: e in part ==> SettlesUnmerged(stops, z, m, stopOf, e)
  }

  ghost predicate StopPartsAre(st: Settings, a: Feed, b: Feed, n: nat, plan: seq<Entry>, k: nat, l: nat) {
    var ok := StopIds(st, a, b);
    var ka, kb := a.stops.keys, b.stops.keys;
    k <= l <= |plan| && plan[..k] == BothPart(ka, kb, ok) && plan[k..l] == OldPart(ka, kb, ok, n) && plan[l..] == NewPart(ka, kb, ok, n)
  }

  lemma StopPartsOf(st: Settings, a: Feed, b: Feed, n: nat)
    ensures var ok := StopIds(st, a, b);
            var k := |Merged(a.stops.keys, b.stops.keys, ok)|;
            StopPartsAre(st, a, b, n, StopPlan(st, a, b, n), k, k + |NotMergedA(a.stops.keys, b.stops.keys, ok)|)
  {
  }

  lemma PartZonesAre(stops: Dict<Stop>, part: seq<Entry>, ids: seq<string>)
    requires |part| == |ids| && forall i :: 0 <= i < |ids| ==> part[i].id == ids[i]
    requires forall id :: id in ids ==> id in stops.rows
    ensures forall e :: e in part ==> e.id in stops.rows
    ensures PartZones(stops, part) == ZonesOf(stops, ids)
  {
    forall i | 0 <= i < |ids|
      ensures part[i].id in stops.rows
    {
      assert ids[i] in ids;
    }
  }

  lemma CarryIds(fromA: bool, ids: seq<string>, others: set<string>, n: nat)
    ensures forall i :: 0 <= i < |ids| ==> Carry(fromA, ids, others, n)[i].id == ids[i]
  {
  }

  lemma OldZones(st: Settings, a: LoadedFeed, b: LoadedFeed, n: nat)
    ensures var part := OldPart(a.stops.keys, b.stops.keys, StopIds(st, a, b), n);
            (forall e :: e in part ==> e.id in a.stops.rows) && PartZones(a.stops, part) == ZonesOnlyOld(st, a, b)
  {
    var ids := NotMergedA(a.stops.keys, b.stops.keys, StopIds(st, a, b));
    CarryIds(true, ids, SetOf(b.stops.keys), n);
    PartZonesAre(a.stops, Carry(true, ids, SetOf(b.stops.keys), n), ids);
  }

  lemma NewZonesOf(st: Settings, a: LoadedFeed, b: LoadedFeed, n: nat)
    ensures var part := NewPart(a.stops.keys, b.stops.keys, StopIds(st, a, b), n);
            (forall e :: e in part ==> e.id in b.stops.rows) && PartZones(b.stops, part) == ZonesOnlyNew(st, a, b)
  {
    var ok := StopIds(st, a, b);
    var ids, m := NotMergedB(a.stops.keys, b.stops.keys, ok), MiddleId(a.stops.keys, b.stops.keys, ok, n);
    NotMergedBDistinct(a.stops.keys, b.stops.keys, ok);
    CarryIds(false, ids, SetOf(a.stops.keys), m);
    PartZonesAre(b.stops, Carry(false, ids, SetOf(a.stops.keys), m), ids);
  }

  /** The first part of the stop plan: its zones, and what its stops become. */
  lemma BothsSettle(st: Settings, a: LoadedFeed, b: LoadedFeed, n: nat, ids: Mapping, k: nat, l: nat)
    requires AllBounded(a, n) && AllBounded(b, n)
    requires ids == StopMapping(st, a, b, n) && StopPartsAre(st, a, b, n, ids.plan, k, l)
    ensures AllSettleMerged(a.stops, b.stops, ids.new', StopOfEntry(a, b, ids, StopZones(st, a, b, ids.n)), ids.plan[..k])
    ensures forall e :: e in ids.plan[..k] ==> e.id in a.stops.rows
    ensures PartZones(a.stops, ids.plan[..k]) == ZonesKept(st, a, b)
  {
    StopPartKinds(st, a, b, n, ids.plan[..k], ids.plan[k..l], ids.plan[l..]);
    AllBothSettle(st, a, b, n, ids.plan[..k]);
    var ids' := Merged(a.stops.keys, b.stops.keys, StopIds(st, a, b));
    PartZonesAre(a.stops, Boths(ids'), ids');
  }

  lemma OldsSettle(st: Settings, a: LoadedFeed, b: LoadedFeed, n: nat, ids: Mapping, k: nat, l: nat)
    requires AllBounded(a, n) && AllBounded(b, n)
    requires ids == StopMapping(st, a, b, n) && StopPartsAre(st, a, b, n, ids.plan, k, l)
    ensures var z := StopZones(st, a, b, ids.n);
            AllSettleUnmerged(a.stops, z.a, ids.old', StopOfEntry(a, b, ids, z), ids.plan[k..l])
    ensures forall e :: e in ids.plan[k..l] ==> e.id in a.stops.rows
    ensures PartZones(a.stops, ids.plan[k..l]) == ZonesOnlyOld(st, a, b)
  {
    StopPartKinds(st, a, b, n, ids.plan[..k], ids.plan[k..l], ids.plan[l..]);
    AllOldSettle(st, a, b, n, ids.plan[k..l]);
    OldZones(st, a, b, n);
  }

  lemma NewsSettle(st: Settings, a: LoadedFeed, b: LoadedFeed, n: nat, ids: Mapping, k: nat, l: nat)
    requires AllBounded(a, n) && AllBounded(b, n)
    requires ids == StopMapping(st, a, b, n) && StopPartsAre(st, a, b, n, ids.plan, k, l)
    ensures var z := StopZones(st, a, b, ids.n);
            AllSettleUnmerged(b.stops, z.b, ids.new', StopOfEntry(a, b, ids, z), ids.plan[l..])
    ensures forall e :: e in ids.plan[l..] ==> e.id in b.stops.rows
    ensures PartZones(b.stops, ids.plan[l..]) == ZonesOnlyNew(st, a, b)
  {
    StopPartKinds(st, a, b, n, ids.plan[..k], ids.plan[k..l], ids.plan[l..]);
    AllNewSettle(st, a, b, n, ids.plan[l..]);
    NewZonesOf(st, a, b, n);
  }

  /** The three parts of the stop plan: what their stops become through the final zone maps, and how these come about. */
  ghost predicate PartsSettle(a: Dict<Stop>, b: Dict<Stop>, ids: Mapping, k: nat, l: nat, z: BothZones, stopOf: Entry --> Stop) {
    && k <= l <= |ids.plan|
    && AllSettleMerged(a, b, ids.new', stopOf, ids.plan[..k])
    && AllSettleUnmerged(a, z.a, ids.old', stopOf, ids.plan[k..l])
    && AllSettleUnmerged(b, z.b, ids.new', stopOf, ids.plan[l..])
    && z == MergeZones(PartZones(a, ids.plan[..k]), PartZones(a, ids.plan[k..l]), PartZones(b, ids.plan[l..]), ids.n)
  }

  lemma PartsOfStops(st: Settings, a: LoadedFeed, b: LoadedFeed, n: nat, ids: Mapping, k: nat, l: nat)
    requires AllBounded(a, n) && AllBounded(b, n)
    requires ids == StopMapping(st, a, b, n) && StopPartsAre(st, a, b, n, ids.plan, k, l)
    ensures var z := StopZones(st, a, b, ids.n);
            PartsSettle(a.stops, b.stops, ids, k, l, z, StopOfEntry(a, b, ids, z))
  {
    BothsSettle(st, a, b, n, ids, k, l);
    OldsSettle(st, a, b, n, ids, k, l);
    NewsSettle(st, a, b, n, ids, k, l);
  }

  /** The rows of the three parts together are those of the merged stop table. */
  lemma SettledRows(st: Settings, a: LoadedFeed, b: LoadedFeed, n: nat, ids: Mapping, k: nat, l: nat)
    requires AllBounded(a, n) && AllBounded(b, n)
    requires ids == StopMapping(st, a, b, n) && k <= l <= |ids.plan|
    ensures var stopOf := StopOfEntry(a, b, ids, StopZones(st, a, b, ids.n));
            && Migrates(ids.plan[..k], stopOf) && Migrates(ids.plan[k..l], stopOf) && Migrates(ids.plan[l..], stopOf)
            && AddRows(AddRows(AddRows(map[], ids.plan[..k], stopOf), ids.plan[k..l], stopOf), ids.plan[l..], stopOf)
               == FeedMerges.MergeStops(st, a, b, n).rows
  {
    var z := StopZones(st, a, b, ids.n);
    var stopOf := StopOfEntry(a, b, ids, z);
    StopRows(st, a, b, n);
    ThreeParts(ids.plan, k, l, stopOf);
    PlanIds(a.stops.keys, b.stops.keys, StopIds(st, a, b), n);
    AddRowsAre(ids.plan, stopOf, FeedMerges.MergeStops(st, a, b, n).rows);
  }

  lemma ThreeParts<E>(plan: seq<Entry>, k: nat, l: nat, migrate: Entry --> E)
    requires k <= l <= |plan| && Migrates(plan, migrate)
    ensures Migrates(plan[..k], migrate) && Migrates(plan[k..l], migrate) && Migrates(plan[l..], migrate)
    ensures AddRows(AddRows(AddRows(map[], plan[..k], migrate), plan[k..l], migrate), plan[l..], migrate) == AddRows(map[], plan, migrate)
  {
    var r, s, t := plan[..k], plan[k..l], plan[l..];
    assert r + s + t == plan;
    AddRowsConcat(map[], r, s, migrate);
    AddRowsConcat(map[], r + s, t, migrate);
  }

  lemma StopPartKinds(st: Settings, a: Feed, b: Feed, n: nat, boths: seq<Entry>, olds: seq<Entry>, news: seq<Entry>)
    requires var ok := StopIds(st, a, b);
             var ka, kb := a.stops.keys, b.stops.keys;
             boths == BothPart(ka, kb, ok) && olds == OldPart(ka, kb, ok, n) && news == NewPart(ka, kb, ok, n)
    ensures forall e :: e in boths ==> e in StopPlan(st, a, b, n)
    ensures forall e :: e in olds ==> e.OnlyOld? && e in StopPlan(st, a, b, n)
    ensures forall e :: e in news ==> e.OnlyNew? && e in StopPlan(st, a, b, n)
  {
    forall e
      ensures e in boths || e in olds || e in news ==> e in StopPlan(st, a, b, n)
    {
      InPart(StopPlan(st, a, b, n), e, boths, olds, news);
    }
  }

  lemma AllBothSettle(st: Settings, a: LoadedFeed, b: LoadedFeed, n: nat, part: seq<Entry>)
    requires AllBounded(a, n) && AllBounded(b, n)
    requires part == BothPart(a.stops.keys, b.stops.keys, StopIds(st, a, b)) && forall e :: e in part ==> e in StopPlan(st, a, b, n)
    ensures var ids := StopMapping(st, a, b, n);
            AllSettleMerged(a.stops, b.stops, ids.new', StopOfEntry(a, b, ids, StopZones(st, a, b, ids.n)), part)
  {
    var ids := StopMapping(st, a, b, n);
    forall e | e in part
      ensures SettlesMerged(a.stops, b.stops, ids.new', StopOfEntry(a, b, ids, StopZones(st, a, b, ids.n)), e)
    {
      BothSettles(st, a, b, n, e);
    }
  }

  lemma OldSettles(a: Feed, b: Feed, ids: Mapping, z: BothZones, e: Entry)
    requires e.OnlyOld? && StopEntryOk(a, b, e, ids.old', ids.new', z)
    ensures SettlesUnmerged(a.stops, z.a, ids.old', StopOfEntry(a, b, ids, z), e)
  {
  }

  lemma NewSettles(a: Feed, b: Feed, ids: Mapping, z: BothZones, e: Entry)
    requires e.OnlyNew? && StopEntryOk(a, b, e, ids.old', ids.new', z)
    ensures SettlesUnmerged(b.stops, z.b, ids.new', StopOfEntry(a, b, ids, z), e)
  {
  }

  lemma StopEntryIs(st: Settings, a: LoadedFeed, b: LoadedFeed, n: nat, e: Entry)
    requires AllBounded(a, n) && AllBounded(b, n) && e in StopPlan(st, a, b, n)
    ensures var ids := StopMapping(st, a, b, n);
            StopEntryOk(a, b, e, ids.old', ids.new', StopZones(st, a, b, ids.n))
  {
    StopEntriesOk(st, a, b, n);
  }

  lemma AllOldSettle(st: Settings, a: LoadedFeed, b: LoadedFeed, n: nat, part: seq<Entry>)
    requires AllBounded(a, n) && AllBounded(b, n)
    requires forall e :: e in part ==> e.OnlyOld? && e in StopPlan(st, a, b, n)
    ensures var ids := StopMapping(st, a, b, n);
            var z := StopZones(st, a, b, ids.n);
            AllSettleUnmerged(a.stops, z.a, ids.old', StopOfEntry(a, b, ids, z), part)
  {
    var ids := StopMapping(st, a, b, n);
    var z := StopZones(st, a, b, ids.n);
    forall e | e in part
      ensures SettlesUnmerged(a.stops, z.a, ids.old', StopOfEntry(a, b, ids, z), e)
    {
      StopEntryIs(st, a, b, n, e);
      OldSettles(a, b, ids, z, e);
    }
  }

  lemma AllNewSettle(st: Settings, a: LoadedFeed, b: LoadedFeed, n: nat, part: seq<Entry>)
    requires AllBounded(a, n) && AllBounded(b, n)
    requires forall e :: e in part ==> e.OnlyNew? && e in StopPlan(st, a, b, n)
    ensures var ids := StopMapping(st, a, b, n);
            var z := StopZones(st, a, b, ids.n);
            AllSettleUnmerged(b.stops, z.b, ids.new', StopOfEntry(a, b, ids, z), part)
  {
    var ids := StopMapping(st, a, b, n);
    var z := StopZones(st, a, b, ids.n);
    forall e | e in part
      ensures SettlesUnmerged(b.stops, z.b, ids.new', StopOfEntry(a, b, ids, z), e)
    {
      StopEntryIs(st, a, b, n, e);
      NewSettles(a, b, ids, z, e);
    }
  }

  lemma BothSettles(st: Settings, a: LoadedFeed, b: LoadedFeed, n: nat, e: Entry)
    requires AllBounded(a, n) && AllBounded(b, n)
    requires e in BothPart(a.stops.keys, b.stops.keys, StopIds(st, a, b)) && e in StopPlan(st, a, b, n)
    ensures var ids := StopMapping(st, a, b, n);
            var z := StopZones(st, a, b, ids.n);
            SettlesMerged(a.stops, b.stops, ids.new', StopOfEntry(a, b, ids, z), e)
  {
    var ids := StopMapping(st, a, b, n);
    var z := StopZones(st, a, b, ids.n);
    StopEntriesOk(st, a, b, n);
    assert StopEntryOk(a, b, e, ids.old', ids.new', z);
    BothPartIs(a.stops.keys, b.stops.keys, StopIds(st, a, b), e);
    ZoneIsListed(a.stops, Merged(a.stops.keys, b.stops.keys, StopIds(st, a, b)), e.id);
    ZoneMapsCover(ZonesKept(st, a, b), ZonesOnlyOld(st, a, b), ZonesOnlyNew(st, a, b), ids.n);
  }

  lemma StopRows(st: Settings, a: LoadedFeed, b: LoadedFeed, n: nat)
    requires AllBounded(a, n) && AllBounded(b, n)
    ensures var ids := StopMapping(st, a, b, n);
            AreRows(ids.plan, StopOfEntry(a, b, ids, StopZones(st, a, b, ids.n)), FeedMerges.MergeStops(st, a, b, n).rows)
  {
    StopEntriesOk(st, a, b, n);
    var ids := StopMapping(st, a, b, n);
    OutcomesAreRows(a, b, ids, StopZones(st, a, b, ids.n));
  }

  lemma OutcomesAreRows(a: Feed, b: Feed, ids: Mapping, z: BothZones)
    requires StopSources(a, b, ids, z)
    ensures AreRows(ids.plan, StopOfEntry(a, b, ids, z), StopOutcomes(a, b, ids, z))
  {
  }

  lemma {:induction false} AssignStep(zm: ZoneMap, zones: seq<string>, n: nat, i: nat)
    requires i < |zones|
    ensures AssignZones(zm, zones[..i + 1], n) == AssignZone(AssignZones(zm, zones[..i], n), zones[i])
  {
    assert zones[..i + 1][..i] == zones[..i];
  }

  lemma {:induction false} AddRowsStep<E>(rows: map<string, E>, part: seq<Entry>, migrate: Entry --> E, i: nat)
    requires i < |part| && Migrates(part, migrate)
    ensures Migrates(part[..i], migrate) && Migrates(part[..i + 1], migrate)
    ensures AddRows(rows, part[..i + 1], migrate) == AddRows(rows, part[..i], migrate)[OutId(part[i]) := migrate(part[i])]
  {
    assert part[..i + 1][..i] == part[..i];
  }

  // ---------- the entities of the other tables ----------

  lemma PlanSources<E>(a: Dict<E>, b: Dict<E>, ok: set<string>, n: nat)
    requires DictOk(a) && DictOk(b) && Bounded(a.keys, n) && Bounded(b.keys, n)
    ensures SourcesOk(a, b, Plan(a.keys, b.keys, ok, n))
  {
    MappingSources(a, b, MapIds(a.keys, b.keys, ok, n), ok);
  }

  lemma CopyRows<E>(a: Dict<E>, b: Dict<E>, plan: seq<Entry>, copy: Entry --> E)
    requires SourcesOk(a, b, plan)
    requires forall e: Entry :: (e.OnlyNew? || e.id in a.rows) && (e.OnlyOld? || e.id in b.rows) ==>
               copy.requires(e) && copy(e) == Source(a, b, e)
    ensures AreRows(plan, copy, Copies(a, b, plan))
  {
  }

  lemma RouteRows(a: LoadedFeed, b: LoadedFeed, plan: seq<Entry>, old': map<string, string>, new': map<string, string>, migrate: Entry --> Route)
    requires AgencyMapsOk(a, b, old', new') && SourcesOk(a.routes, b.routes, plan)
    requires forall e: Entry :: (e.OnlyNew? || e.id in a.routes.rows) && (e.OnlyOld? || e.id in b.routes.rows) ==>
               migrate.requires(e) && migrate(e) == RouteOf(a, b, e, old', new')
    ensures AreRows(plan, migrate, RouteOutcomes(a, b, plan, old', new'))
  {
    hide RouteOf;
  }

  lemma FareRows(a: Feed, b: Feed, plan: seq<Entry>, migrate: Entry --> Fare)
    requires SourcesOk(a.fares, b.fares, plan)
    requires forall e: Entry :: (e.OnlyNew? || e.id in a.fares.rows) && (e.OnlyOld? || e.id in b.fares.rows) ==>
               migrate.requires(e) && migrate(e) == Source(a.fares, b.fares, e).(rules := [])
    ensures AreRows(plan, migrate, FareOutcomes(a, b, plan))
  {
  }

  lemma TripRows(a: LoadedFeed, b: LoadedFeed, plan: seq<Entry>, old': Maps, new': Maps, migrate: Entry --> Trip)
    requires MapsFit(a, b, old', new') && SourcesOk(a.trips, b.trips, plan)
    requires forall e :: e in plan ==> !e.Both?
    requires forall e: Entry :: (e.OnlyNew? || e.id in a.trips.rows) && (e.OnlyOld? || e.id in b.trips.rows) && !e.Both? ==>
               migrate.requires(e) && migrate(e) == TripOf(a, b, e, old', new')
    ensures AreRows(plan, migrate, TripOutcomes(a, b, plan, old', new'))
  {
    hide TripOf, MapsFit, OutId;
  }

  lemma PlanIds(a: seq<string>, b: seq<string>, ok: set<string>, n: nat)
    requires Distinct(a) && Distinct(b) && Bounded(a, n) && Bounded(b, n)
    ensures forall e, f :: e in Plan(a, b, ok, n) && f in Plan(a, b, ok, n) && OutId(e) == OutId(f) ==> e == f
  {
    OutIdsDistinct(a, b, ok, n);
    OutIdOf(Plan(a, b, ok, n));
  }

  lemma CountsAre(a: seq<string>, b: seq<string>, ok: set<string>)
    requires Distinct(a) && Distinct(b)
    ensures |Merged(a, b, ok)| + |NotMergedA(a, b, ok)| == |a|
    ensures |Merged(a, b, ok)| + |NotMergedB(a, b, ok)| == |b|
  {
    FilterSplits(a, SetOf(b) * ok);
    NewsSplit(a, b, ok);
  }

  // ---------- fare rules ----------

  ghost function RulesFrom(f: LoadedFeed, m: Maps, z: ZoneMap, fares: set<string>): set<MergedRule>
    requires MapsCover(f, m) && ZonesCover(f, z) && fares <= f.fares.rows.Keys
  {
    set id, r | id in fares && r in f.fares.rows[id].rules :: MigratedRule(f, m, z, id, r)
  }

  lemma RulesFromStep(f: LoadedFeed, m: Maps, z: ZoneMap, fares: set<string>, id: string)
    requires MapsCover(f, m) && ZonesCover(f, z) && fares <= f.fares.rows.Keys && id in f.fares.rows
    ensures RulesFrom(f, m, z, fares + {id}) == RulesFrom(f, m, z, fares) + RulesFrom(f, m, z, {id})
  {
  }

  lemma AllRules(f: LoadedFeed, m: Maps, z: ZoneMap)
    requires MapsCover(f, m) && ZonesCover(f, z)
    ensures RulesFrom(f, m, z, SetOf(f.fares.keys)) == MigratedRules(f, m, z)
  {
  }
}
