/** Trips of one vehicle block that overlap: the sorted sweep of validate_blocks, against the check of all pairs. */
module Blocks {
  import opened Wrappers
  import opened Dates
  import opened Calendars
  import opened ServicePeriods
  import opened Sequences

  /** A trip of a block, with its first arrival and last departure. */
  datatype Interval = Interval(tripId: string, serviceId: string, first: int, last: int)

  datatype Report = Report(tripA: string, tripB: string, block: string)

  /** The calendars of the known services. */
  type Services = map<string, Calendar>

  // ---------- sorting by start ----------

  function Insert(s: seq<Interval>, x: Interval): seq<Interval> {
    if s == [] then [x]
    else if x.first < s[|s| - 1].first then Insert(s[..|s| - 1], x) + [s[|s| - 1]]
    else s + [x]
  }

  /** The stable sort by first arrival. */
  function SortByStart(s: seq<Interval>): seq<Interval> {
    if s == [] then [] else Insert(SortByStart(s[..|s| - 1]), s[|s| - 1])
  }

  ghost predicate ByStart(s: seq<Interval>) {
    forall i, j :: 0 <= i < j < |s| ==> s[i].first <= s[j].first
  }

  lemma {:induction false} InsertHolds(s: seq<Interval>, x: Interval)
    ensures multiset(Insert(s, x)) == multiset(s) + multiset{x}
    decreases |s|
  {
    if s != [] {
      SplitLast(s);
      InsertHolds(s[..|s| - 1], x);
    }
  }

  /** The trips that start at a time, in their order. */
  function StartingAt(s: seq<Interval>, time: int): seq<Interval> {
    if s == [] then []
    else StartingAt(s[..|s| - 1], time) + if s[|s| - 1].first == time then [s[|s| - 1]] else []
  }

  lemma StartingAtSnoc(s: seq<Interval>, x: Interval, time: int)
    ensures StartingAt(s + [x], time) == StartingAt(s, time) + if x.first == time then [x] else []
  {
    Snoc(s, x);
  }

  lemma {:induction false} InsertIsStable(s: seq<Interval>, x: Interval, time: int)
    ensures StartingAt(Insert(s, x), time) == StartingAt(s + [x], time)
    decreases |s|
  {
    StartingAtSnoc(s, x, time);
    if s != [] && x.first < s[|s| - 1].first {
      var init, z := s[..|s| - 1], s[|s| - 1];
      InsertIsStable(init, x, time);
      StartingAtSnoc(init, x, time);
      StartingAtSnoc(Insert(init, x), z, time);
    } else if s == [] {
      assert s + [x] == [x];
    }
  }

  /** The sort is stable: trips of one start time stay in their order. */
  lemma {:induction false} SortIsStable(s: seq<Interval>, time: int)
    ensures StartingAt(SortByStart(s), time) == StartingAt(s, time)
    decreases |s|
  {
    if s != [] {
      var init, x := s[..|s| - 1], s[|s| - 1];
      SortIsStable(init, time);
      InsertIsStable(SortByStart(init), x, time);
      StartingAtSnoc(SortByStart(init), x, time);
    }
  }

  lemma ByStartSnoc(s: seq<Interval>, x: Interval)
    requires ByStart(s) && forall y :: y in s ==> y.first <= x.first
    ensures ByStart(s + [x])
  {
  }

  lemma {:induction false} InsertSorts(s: seq<Interval>, x: Interval)
    requires ByStart(s)
    ensures ByStart(Insert(s, x)) && multiset(Insert(s, x)) == multiset(s) + multiset{x}
    decreases |s|
  {
    InsertHolds(s, x);
    if s != [] {
      var init, z := s[..|s| - 1], s[|s| - 1];
      if x.first < z.first {
        InsertSorts(init, x);
        forall y | y in Insert(init, x)
          ensures y.first <= z.first
        {
          assert y in multiset(Insert(init, x));
          assert y in multiset(init) || y == x;
        }
        ByStartSnoc(Insert(init, x), z);
      }
    }
  }

  lemma {:induction false} SortByStartSorts(s: seq<Interval>)
    ensures ByStart(SortByStart(s)) && multiset(SortByStart(s)) == multiset(s)
    decreases |s|
  {
    if s != [] {
      var init, z := s[..|s| - 1], s[|s| - 1];
      assert s == init + [z];
      SortByStartSorts(init);
      InsertSorts(SortByStart(init), z);
    }
  }

  // ---------- the all-pairs check ----------

  /** Some date is active for both. */
  ghost predicate ShareDate(a: Calendar, b: Calendar)
    requires CalendarOk(a) && CalendarOk(b)
  {
    exists s :: IsServiceDate(s) && ActiveOn(a, s) && ActiveOn(b, s)
  }

  ghost predicate ServicesOk(services: Services) {
    forall id :: id in services ==> CalendarOk(services[id])
  }

  /** The services are the same, or both are known and share a date. */
  ghost predicate SameDays(services: Services, a: string, b: string)
    requires ServicesOk(services)
  {
    a == b || (a in services && b in services && ShareDate(services[a], services[b]))
  }

  /** x ends strictly after y starts, on a day that both run. */
  ghost predicate Clash(services: Services, x: Interval, y: Interval)
    requires ServicesOk(services)
  {
    y.first < x.last && SameDays(services, x.serviceId, y.serviceId)
  }

  ghost function ReportIf(services: Services, block: string, x: Interval, y: Interval): seq<Report>
    requires ServicesOk(services)
  {
    if Clash(services, x, y) then [Report(x.tripId, y.tripId, block)] else []
  }

  /** The reports for s[i] with the trips after it, up to but not including s[j]. */
  ghost function Row(services: Services, block: string, s: seq<Interval>, i: nat, j: nat): seq<Report>
    requires ServicesOk(services) && i < |s| && j <= |s|
  {
    if j <= i + 1 then [] else Row(services, block, s, i, j - 1) + ReportIf(services, block, s[i], s[j - 1])
  }

  /** The reports of all pairs whose first trip is among the first n. */
  ghost function Rows(services: Services, block: string, s: seq<Interval>, n: nat): seq<Report>
    requires ServicesOk(services) && n <= |s|
  {
    if n == 0 then [] else Rows(services, block, s, n - 1) + Row(services, block, s, n - 1, |s|)
  }

  ghost function BlockReports(services: Services, block: string, trips: seq<Interval>): seq<Report>
    requires ServicesOk(services)
  {
    Rows(services, block, SortByStart(trips), |SortByStart(trips)|)
  }

  ghost function AllReports(services: Services, blocks: seq<(string, seq<Interval>)>): seq<Report>
    requires ServicesOk(services)
  {
    if blocks == [] then []
    else
      var (id, trips) := blocks[|blocks| - 1];
      AllReports(services, blocks[..|blocks| - 1]) + BlockReports(services, id, trips)
  }

  // ---------- what is reported ----------

  lemma {:induction false} RowReports(services: Services, block: string, s: seq<Interval>, i: nat, j: nat, r: Report)
    requires ServicesOk(services) && i < |s| && j <= |s|
    ensures r in Row(services, block, s, i, j) <==>
            exists k :: i < k < j && Clash(services, s[i], s[k]) && r == Report(s[i].tripId, s[k].tripId, block)
    decreases j
  {
    if j > i + 1 {
      RowReports(services, block, s, i, j - 1, r);
    }
  }

  /** r is the report of a clash whose first trip is among the first n. */
  ghost predicate ReportsClash(services: Services, block: string, s: seq<Interval>, n: nat, r: Report)
    requires ServicesOk(services) && n <= |s|
  {
    exists i, k :: 0 <= i < n && i < k < |s| && Clash(services, s[i], s[k]) && r == Report(s[i].tripId, s[k].tripId, block)
  }

  lemma ReportsClashStep(services: Services, block: string, s: seq<Interval>, n: nat, r: Report)
    requires ServicesOk(services) && n < |s|
    ensures ReportsClash(services, block, s, n + 1, r) <==>
            ReportsClash(services, block, s, n, r) ||
            exists k :: n < k < |s| && Clash(services, s[n], s[k]) && r == Report(s[n].tripId, s[k].tripId, block)
  {
  }

  lemma {:induction false} RowsReports(services: Services, block: string, s: seq<Interval>, n: nat, r: Report)
    requires ServicesOk(services) && n <= |s|
    ensures r in Rows(services, block, s, n) <==> ReportsClash(services, block, s, n, r)
    decreases n
  {
    if n > 0 {
      RowsReports(services, block, s, n - 1, r);
      RowReports(services, block, s, n - 1, |s|, r);
      ReportsClashStep(services, block, s, n - 1, r);
    }
  }

  lemma PairIsReported(services: Services, block: string, s: seq<Interval>, i: nat, k: nat)
    requires ServicesOk(services) && i < k < |s| && Clash(services, s[i], s[k])
    ensures Report(s[i].tripId, s[k].tripId, block) in Rows(services, block, s, |s|)
  {
    var r := Report(s[i].tripId, s[k].tripId, block);
    RowsReports(services, block, s, |s|, r);
    assert ReportsClash(services, block, s, |s|, r);
  }

  lemma Placed(s: seq<Interval>, t: seq<Interval>, x: Interval) returns (i: nat)
    requires multiset(s) == multiset(t) && x in t
    ensures i < |s| && s[i] == x
  {
    assert x in multiset(s);
    i :| 0 <= i < |s| && s[i] == x;
  }

  /** Two trips of a block that start at different times are reported, earlier one first, whenever they clash. */
  lemma ClashIsReported(services: Services, block: string, trips: seq<Interval>, x: Interval, y: Interval)
    requires ServicesOk(services) && x in trips && y in trips && x.first < y.first && Clash(services, x, y)
    ensures Report(x.tripId, y.tripId, block) in BlockReports(services, block, trips)
  {
    SortByStartSorts(trips);
    var s := SortByStart(trips);
    var i := Placed(s, trips, x);
    var k := Placed(s, trips, y);
    PairIsReported(services, block, s, i, k);
  }

  /** Of two trips that start at the same time, one is reported with the other if they clash. */
  lemma TieIsReported(services: Services, block: string, trips: seq<Interval>, x: Interval, y: Interval)
    requires ServicesOk(services) && x in trips && y in trips && x != y && x.first == y.first
    requires Clash(services, x, y) && Clash(services, y, x)
    ensures Report(x.tripId, y.tripId, block) in BlockReports(services, block, trips) ||
            Report(y.tripId, x.tripId, block) in BlockReports(services, block, trips)
  {
    SortByStartSorts(trips);
    var s := SortByStart(trips);
    var i := Placed(s, trips, x);
    var k := Placed(s, trips, y);
    if i < k {
      PairIsReported(services, block, s, i, k);
    } else {
      PairIsReported(services, block, s, k, i);
    }
  }

  /** Nothing else is reported: every report names two trips of the block that clash, the first starting no later. */
  lemma ReportIsClash(services: Services, block: string, trips: seq<Interval>, r: Report)
    requires ServicesOk(services) && r in BlockReports(services, block, trips)
    ensures exists x, y :: x in trips && y in trips && x.first <= y.first && Clash(services, x, y)
                           && r == Report(x.tripId, y.tripId, block)
  {
    SortByStartSorts(trips);
    var s := SortByStart(trips);
    RowsReports(services, block, s, |s|, r);
    var i, k :| 0 <= i < |s| && i < k < |s| && Clash(services, s[i], s[k]) && r == Report(s[i].tripId, s[k].tripId, block);
    assert s[i] in multiset(trips) && s[k] in multiset(trips);
  }

  // ---------- the sweep ----------

  /** Once one later trip starts too late, so do all after it. */
  lemma {:induction false} BreakLosesNothing(services: Services, block: string, s: seq<Interval>, i: nat, j: nat, n: nat)
    requires ServicesOk(services) && ByStart(s) && i < j <= n <= |s| && j < |s| && s[i].last <= s[j].first
    ensures Row(services, block, s, i, n) == Row(services, block, s, i, j)
    decreases n
  {
    if n > j {
      BreakLosesNothing(services, block, s, i, j, n - 1);
      assert s[j].first <= s[n - 1].first;
    }
  }

  type Cache = map<(string, string), bool>

  /** Whatever has been cached about two services is true of their calendars. */
  ghost predicate CacheOk(services: Services, cache: Cache)
    requires ServicesOk(services)
  {
    forall k :: k in cache ==>
      k.0 in services && k.1 in services && (cache[k] <==> ShareDate(services[k.0], services[k.1]))
  }

  function CacheKey(a: string, b: string): (string, string) {
    if StrLess(b, a) then (b, a) else (a, b)
  }

  /** The service periods stand for the calendars. */
  ghost predicate Stand(periods: map<string, ServicePeriod>, services: Services)
    reads set id | id in periods :: periods[id]
  {
    periods.Keys == services.Keys && forall id :: id in periods ==> periods[id].Value() == services[id]
  }

  method DatesOverlap(a: ServicePeriod, b: ServicePeriod) returns (overlap: bool)
    requires CalendarOk(a.Value()) && CalendarOk(b.Value())
    ensures overlap <==> ShareDate(a.Value(), b.Value())
  {
    var datesA := a.ActiveDates();
    var datesB := b.ActiveDates();
    overlap := false;
    for i := 0 to |datesA|
      invariant forall k :: 0 <= k < i ==> datesA[k] !in datesB
    {
      if datesA[i] in datesB {
        assert IsServiceDate(datesA[i]) && ActiveOn(a.Value(), datesA[i]) && ActiveOn(b.Value(), datesA[i]);
        return true;
      }
    }
  }

  /** The answer for two different services, or None if one of them is unknown and the cache does not help. */
  method ServicesOverlap(periods: map<string, ServicePeriod>, ghost services: Services, cache: Cache, a: string, b: string)
    returns (overlap: Option<bool>, cache': Cache)
    requires ServicesOk(services) && Stand(periods, services) && CacheOk(services, cache) && a != b
    ensures CacheOk(services, cache')
    ensures overlap.Some? ==> (overlap.value <==> SameDays(services, a, b))
    ensures overlap.None? ==> a !in services || b !in services
  {
    cache' := cache;
    var key := CacheKey(a, b);
    if key !in cache {
      if a !in periods {
        return None, cache;
      }
      if b !in periods {
        return None, cache;
      }
      var o := DatesOverlap(periods[a], periods[b]);
      cache' := cache[key := o];
    }
    overlap := Some(cache'[key]);
  }

  method ValidateRow(periods: map<string, ServicePeriod>, ghost services: Services, cache: Cache,
                     block: string, s: seq<Interval>, i: nat)
    returns (reports: seq<Report>, cache': Cache, complete: bool)
    requires ServicesOk(services) && Stand(periods, services) && CacheOk(services, cache) && ByStart(s) && i < |s|
    ensures CacheOk(services, cache')
    ensures complete ==> reports == Row(services, block, s, i, |s|)
    ensures !complete ==> exists j :: i < j < |s| && reports == Row(services, block, s, i, j)
    ensures !complete ==> exists k :: 0 <= k < |s| && s[k].serviceId !in services
  {
    hide CacheOk, Stand, ServicesOk, ByStart;
    reports, cache' := [], cache;
    var a := s[i];
    for j := i + 1 to |s|
      invariant CacheOk(services, cache') && reports == Row(services, block, s, i, j)
    {
      var b := s[j];
      if a.last <= b.first {
        BreakLosesNothing(services, block, s, i, j, |s|);
        return reports, cache', true;
      }
      if a.serviceId == b.serviceId {
        reports := reports + [Report(a.tripId, b.tripId, block)];
      } else {
        var overlap;
        overlap, cache' := ServicesOverlap(periods, services, cache', a.serviceId, b.serviceId);
        if overlap.None? {
          return reports, cache', false;
        }
        if overlap.value {
          reports := reports + [Report(a.tripId, b.tripId, block)];
        }
      }
    }
    complete := true;
  }

  /** The reports of a block, or of its first rows and part of one more if an unknown service stops the sweep. */
  method ValidateBlock(periods: map<string, ServicePeriod>, ghost services: Services, cache: Cache,
                       block: string, trips: seq<Interval>)
    returns (reports: seq<Report>, cache': Cache, complete: bool)
    requires ServicesOk(services) && Stand(periods, services) && CacheOk(services, cache)
    ensures CacheOk(services, cache')
    ensures complete ==> reports == BlockReports(services, block, trips)
    ensures reports <= BlockReports(services, block, trips)
    ensures !complete ==> exists x :: x in trips && x.serviceId !in services
  {
    hide CacheOk, Stand, ServicesOk, ByStart, Row;
    SortByStartSorts(trips);
    var s := SortByStart(trips);
    reports, cache' := [], cache;
    for i := 0 to |s|
      invariant CacheOk(services, cache') && reports == Rows(services, block, s, i)
    {
      var row;
      row, cache', complete := ValidateRow(periods, services, cache', block, s, i);
      if !complete {
        ghost var j :| i < j < |s| && row == Row(services, block, s, i, j);
        RowPrefix(services, block, s, i, j, |s|);
        RowsPrefix(services, block, s, i + 1, |s|);
        PrefixConcat(reports, row, Row(services, block, s, i, |s|));
        ghost var k :| 0 <= k < |s| && s[k].serviceId !in services;
        assert s[k] in multiset(trips);
        return reports + row, cache', false;
      }
      reports := reports + row;
    }
    complete := true;
  }

  lemma PrefixConcat(a: seq<Report>, b: seq<Report>, c: seq<Report>)
    requires b <= c
    ensures a + b <= a + c
  {
  }

  lemma {:induction false} RowPrefix(services: Services, block: string, s: seq<Interval>, i: nat, j: nat, n: nat)
    requires ServicesOk(services) && i < |s| && j <= n <= |s|
    ensures Row(services, block, s, i, j) <= Row(services, block, s, i, n)
    decreases n
  {
    if j < n {
      RowPrefix(services, block, s, i, j, n - 1);
    }
  }

  lemma {:induction false} RowsPrefix(services: Services, block: string, s: seq<Interval>, m: nat, n: nat)
    requires ServicesOk(services) && m <= n <= |s|
    ensures Rows(services, block, s, m) <= Rows(services, block, s, n)
    decreases n
  {
    if m < n {
      RowsPrefix(services, block, s, m, n - 1);
    }
  }

  lemma {:induction false} AllReportsPrefix(services: Services, blocks: seq<(string, seq<Interval>)>, m: nat, n: nat)
    requires ServicesOk(services) && m <= n <= |blocks|
    ensures AllReports(services, blocks[..m]) <= AllReports(services, blocks[..n])
    decreases n
  {
    if m < n {
      AllReportsPrefix(services, blocks, m, n - 1);
      assert blocks[..n][..n - 1] == blocks[..n - 1];
    }
  }

  /**
   With all service ids known, exactly the reports of the all-pairs check, in its order; in any case
   a prefix of them, and short of all only if some trip's service is unknown.
   */
  method ValidateBlocks(periods: map<string, ServicePeriod>, ghost services: Services, blocks: seq<(string, seq<Interval>)>)
    returns (reports: seq<Report>)
    requires ServicesOk(services) && Stand(periods, services)
    ensures reports <= AllReports(services, blocks)
    ensures (forall b, x :: b in blocks && x in b.1 ==> x.serviceId in services) ==> reports == AllReports(services, blocks)
  {
    var cache: Cache := map[];
    reports := [];
    for i := 0 to |blocks|
      invariant CacheOk(services, cache) && reports == AllReports(services, blocks[..i])
    {
      assert blocks[..i + 1][..i] == blocks[..i];
      var found, complete;
      found, cache, complete := ValidateBlock(periods, services, cache, blocks[i].0, blocks[i].1);
      ghost var before := reports;
      reports := reports + found;
      if !complete {
        AllReportsPrefix(services, blocks, i + 1, |blocks|);
        assert blocks[..|blocks|] == blocks;
        PrefixConcat(before, found, BlockReports(services, blocks[i].0, blocks[i].1));
        assert blocks[i] in blocks;
        return;
      }
    }
    assert blocks[..|blocks|] == blocks;
  }
}
