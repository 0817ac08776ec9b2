/** How many trips run on each date, and how many departures they make. */
module TripCounts {
  import opened Wrappers
  import opened Sequences
  import opened Dates
  import opened Calendars
  import opened ServicePeriods
  import opened TripRuns

  datatype Trip = Trip(service: string, headways: seq<Headway>, stopTimes: nat)

  datatype DayCount = DayCount(date: Date, trips: int, departures: int)

  ghost predicate TripsOk(ts: seq<Trip>) {
    forall i :: 0 <= i < |ts| ==> HeadwaysOk(ts[i].headways)
  }

  /** A trip without headways, or without any run of them, counts once. */
  function Runs(t: Trip): nat
    requires HeadwaysOk(t.headways)
  {
    if TotalCount(t.headways) == 0 then 1 else TotalCount(t.headways)
  }

  function Departures(t: Trip): int
    requires HeadwaysOk(t.headways)
  {
    (t.stopTimes - 1) * Runs(t)
  }

  /** What a trip is counted for: its runs, or its departures. */
  datatype Measure = OfRuns | OfDepartures

  function Weight(m: Measure, t: Trip): int
    requires HeadwaysOk(t.headways)
  {
    if m.OfRuns? then Runs(t) else Departures(t)
  }

  /** All trips of a service together. */
  function CountOf(m: Measure, ts: seq<Trip>, service: string): int
    requires TripsOk(ts)
  {
    if ts == [] then 0
    else
      var t := ts[|ts| - 1];
      CountOf(m, ts[..|ts| - 1], service) + if t.service == service then Weight(m, t) else 0
  }

  /** Whether the service of an id runs on a date. */
  type Activity = (string, Date) -> bool

  /** All trips of all services that run on the date. */
  function DayTotal(m: Measure, services: seq<string>, active: Activity, ts: seq<Trip>, date: Date): int
    requires TripsOk(ts)
  {
    if services == [] then 0
    else
      var id := services[|services| - 1];
      DayTotal(m, services[..|services| - 1], active, ts, date) + if active(id, date) then CountOf(m, ts, id) else 0
  }

  function RangeTotal(m: Measure, services: seq<string>, active: Activity, ts: seq<Trip>, ds: seq<Date>): int
    requires TripsOk(ts)
  {
    if ds == [] then 0
    else RangeTotal(m, services, active, ts, ds[..|ds| - 1]) + DayTotal(m, services, active, ts, ds[|ds| - 1])
  }

  // ---------- the same total, trip by trip ----------

  /** How many of the dates the service runs on. */
  function DaysActive(active: Activity, id: string, ds: seq<Date>): nat {
    if ds == [] then 0 else DaysActive(active, id, ds[..|ds| - 1]) + if active(id, ds[|ds| - 1]) then 1 else 0
  }

  function TripTotal(m: Measure, services: seq<string>, active: Activity, ts: seq<Trip>, ds: seq<Date>): int
    requires TripsOk(ts)
  {
    if ts == [] then 0
    else
      var t := ts[|ts| - 1];
      TripTotal(m, services, active, ts[..|ts| - 1], ds) + if t.service in services then Weight(m, t) * DaysActive(active, t.service, ds) else 0
  }

  lemma {:induction false} DayWithoutTrips(m: Measure, services: seq<string>, active: Activity, date: Date)
    ensures DayTotal(m, services, active, [], date) == 0
  {
    if services != [] {
      DayWithoutTrips(m, services[..|services| - 1], active, date);
    }
  }

  /** One more trip adds its weight to a day exactly if its service is known and runs then. */
  lemma {:induction false} DayWithTrip(m: Measure, services: seq<string>, active: Activity, ts: seq<Trip>, t: Trip, date: Date)
    requires Distinct(services) && TripsOk(ts + [t]) && TripsOk(ts) && HeadwaysOk(t.headways)
    ensures DayTotal(m, services, active, ts + [t], date) ==
            DayTotal(m, services, active, ts, date) + if t.service in services && active(t.service, date) then Weight(m, t) else 0
    decreases |services|
  {
    if services != [] {
      var init, id := services[..|services| - 1], services[|services| - 1];
      DayWithTrip(m, init, active, ts, t, date);
      assert (ts + [t])[..|ts + [t]| - 1] == ts;
      assert services == init + [id] && id !in init;
    }
  }

  lemma {:induction false} RangeWithoutTrips(m: Measure, services: seq<string>, active: Activity, ds: seq<Date>)
    ensures RangeTotal(m, services, active, [], ds) == 0
  {
    if ds != [] {
      RangeWithoutTrips(m, services, active, ds[..|ds| - 1]);
      DayWithoutTrips(m, services, active, ds[|ds| - 1]);
    }
  }

  lemma TimesNext(w: int, k: int)
    ensures w * (k + 1) == w * k + w && w * (k + 0) == w * k
  {
  }

  lemma {:induction false} RangeWithTrip(m: Measure, services: seq<string>, active: Activity, ts: seq<Trip>, t: Trip, ds: seq<Date>)
    requires Distinct(services) && TripsOk(ts + [t]) && TripsOk(ts) && HeadwaysOk(t.headways)
    ensures RangeTotal(m, services, active, ts + [t], ds) ==
            RangeTotal(m, services, active, ts, ds) + if t.service in services then Weight(m, t) * DaysActive(active, t.service, ds) else 0
    decreases |ds|
  {
    if ds != [] {
      var init, d := ds[..|ds| - 1], ds[|ds| - 1];
      RangeWithTrip(m, services, active, ts, t, init);
      DayWithTrip(m, services, active, ts, t, d);
      TimesNext(Weight(m, t), DaysActive(active, t.service, init));
    }
  }

  /** Day by day or trip by trip: each trip of a known service counts once for each run on each date the service runs. */
  lemma {:induction false} CountsAreConserved(m: Measure, services: seq<string>, active: Activity, ts: seq<Trip>, ds: seq<Date>)
    requires Distinct(services) && TripsOk(ts)
    ensures RangeTotal(m, services, active, ts, ds) == TripTotal(m, services, active, ts, ds)
    decreases |ts|
  {
    if ts == [] {
      RangeWithoutTrips(m, services, active, ds);
    } else {
      var init, t := ts[..|ts| - 1], ts[|ts| - 1];
      assert ts == init + [t];
      CountsAreConserved(m, services, active, init, ds);
      RangeWithTrip(m, services, active, init, t, ds);
    }
  }

  // ---------- what is counted: runs of trips, and the stops they depart from ----------

  /** The trip makes a run number k: one for each start time of its periods, or a single one if there are none. */
  ghost predicate Goes(t: Trip, k: int)
    requires HeadwaysOk(t.headways)
  {
    if AllRuns(t.headways) == [] then k == 0 else 0 <= k < |AllRuns(t.headways)|
  }

  ghost predicate OnDate(services: seq<string>, active: Activity, t: Trip, date: Date) {
    t.service in services && active(t.service, date)
  }

  /** The runs on a date: which trip, and which run of it. */
  ghost function RunsOn(services: seq<string>, active: Activity, ts: seq<Trip>, date: Date): set<(int, int)>
    requires TripsOk(ts)
  {
    set i, k | 0 <= i < |ts| && 0 <= k <= |AllRuns(ts[i].headways)| && OnDate(services, active, ts[i], date) && Goes(ts[i], k) :: (i, k)
  }

  /** The departures on a date: a run, and a stop of it that is not the last. */
  ghost function DeparturesOn(services: seq<string>, active: Activity, ts: seq<Trip>, date: Date): set<(int, int, int)>
    requires TripsOk(ts)
  {
    set i, k, s | 0 <= i < |ts| && 0 <= k <= |AllRuns(ts[i].headways)| && OnDate(services, active, ts[i], date) && Goes(ts[i], k)
                  && 0 <= s < ts[i].stopTimes - 1 :: (i, k, s)
  }

  /** The runs of trips that have no stops; each makes for one departure less. */
  ghost function StoplessOn(services: seq<string>, active: Activity, ts: seq<Trip>, date: Date): set<(int, int)>
    requires TripsOk(ts)
  {
    set i, k | 0 <= i < |ts| && 0 <= k <= |AllRuns(ts[i].headways)| && OnDate(services, active, ts[i], date) && Goes(ts[i], k)
               && ts[i].stopTimes == 0 :: (i, k)
  }

  lemma GoesUpToRuns(t: Trip)
    requires HeadwaysOk(t.headways)
    ensures forall k :: Goes(t, k) <==> 0 <= k < Runs(t)
    ensures Runs(t) <= |AllRuns(t.headways)| + 1
  {
    AllRunsCount(t.headways);
  }

  ghost function Line(i: int, n: nat): set<(int, int)> {
    set k | 0 <= k < n :: (i, k)
  }

  ghost function Grid(i: int, n: nat, m: nat): set<(int, int, int)> {
    set k, s | 0 <= k < n && 0 <= s < m :: (i, k, s)
  }

  ghost function GridLine(i: int, k: int, m: nat): set<(int, int, int)> {
    set s | 0 <= s < m :: (i, k, s)
  }

  lemma {:induction false} LineSize(i: int, n: nat)
    ensures |Line(i, n)| == n
  {
    if n > 0 {
      LineSize(i, n - 1);
      assert Line(i, n) == Line(i, n - 1) + {(i, n - 1)};
    }
  }

  lemma {:induction false} GridLineSize(i: int, k: int, m: nat)
    ensures |GridLine(i, k, m)| == m
  {
    if m > 0 {
      GridLineSize(i, k, m - 1);
      assert GridLine(i, k, m) == GridLine(i, k, m - 1) + {(i, k, m - 1)};
    }
  }

  lemma {:induction false} GridSize(i: int, n: nat, m: nat)
    ensures |Grid(i, n, m)| == m * n
  {
    if n > 0 {
      GridSize(i, n - 1, m);
      GridLineSize(i, n - 1, m);
      assert Grid(i, n, m) == Grid(i, n - 1, m) + GridLine(i, n - 1, m);
      TimesNext(m, n - 1);
    }
  }

  /** One more trip. */
  lemma RunsWithTrip(services: seq<string>, active: Activity, ts: seq<Trip>, t: Trip, date: Date)
    requires TripsOk(ts + [t]) && TripsOk(ts) && HeadwaysOk(t.headways)
    ensures RunsOn(services, active, ts + [t], date) ==
            RunsOn(services, active, ts, date) + if OnDate(services, active, t, date) then Line(|ts|, Runs(t)) else {}
    ensures StoplessOn(services, active, ts + [t], date) ==
            StoplessOn(services, active, ts, date) +
            if OnDate(services, active, t, date) && t.stopTimes == 0 then Line(|ts|, Runs(t)) else {}
  {
    hide Goes, Runs, OnDate, AllRuns;
    var all := ts + [t];
    GoesUpToRuns(t);
    assert forall i :: 0 <= i < |ts| ==> all[i] == ts[i];
    assert all[|ts|] == t;
  }

  lemma DeparturesWithTrip(services: seq<string>, active: Activity, ts: seq<Trip>, t: Trip, date: Date)
    requires TripsOk(ts + [t]) && TripsOk(ts) && HeadwaysOk(t.headways)
    ensures var m: nat := if t.stopTimes == 0 then 0 else t.stopTimes - 1;
            DeparturesOn(services, active, ts + [t], date) ==
            DeparturesOn(services, active, ts, date) + if OnDate(services, active, t, date) then Grid(|ts|, Runs(t), m) else {}
  {
    hide Goes, Runs, OnDate, AllRuns;
    var all := ts + [t];
    GoesUpToRuns(t);
    assert forall i :: 0 <= i < |ts| ==> all[i] == ts[i];
    assert all[|ts|] == t;
  }

  /** The totals of a day count its runs, and its departures. */
  lemma {:induction false} DayTotalsCount(services: seq<string>, active: Activity, ts: seq<Trip>, date: Date)
    requires Distinct(services) && TripsOk(ts)
    ensures DayTotal(OfRuns, services, active, ts, date) == |RunsOn(services, active, ts, date)|
    ensures DayTotal(OfDepartures, services, active, ts, date) ==
            |DeparturesOn(services, active, ts, date)| - |StoplessOn(services, active, ts, date)|
    decreases |ts|
  {
    if ts == [] {
      DayWithoutTrips(OfRuns, services, active, date);
      DayWithoutTrips(OfDepartures, services, active, date);
      assert RunsOn(services, active, ts, date) == {} && DeparturesOn(services, active, ts, date) == {};
      assert StoplessOn(services, active, ts, date) == {};
    } else {
      var init, t := ts[..|ts| - 1], ts[|ts| - 1];
      SplitLast(ts);
      DayTotalsCount(services, active, init, date);
      TripIsCounted(services, active, init, t, date);
    }
  }

  /** A trip whose service runs on the date adds its runs, and the departures of each. */
  lemma TripIsCounted(services: seq<string>, active: Activity, ts: seq<Trip>, t: Trip, date: Date)
    requires Distinct(services) && TripsOk(ts + [t]) && TripsOk(ts) && HeadwaysOk(t.headways)
    requires DayTotal(OfRuns, services, active, ts, date) == |RunsOn(services, active, ts, date)|
    requires DayTotal(OfDepartures, services, active, ts, date) ==
             |DeparturesOn(services, active, ts, date)| - |StoplessOn(services, active, ts, date)|
    ensures DayTotal(OfRuns, services, active, ts + [t], date) == |RunsOn(services, active, ts + [t], date)|
    ensures DayTotal(OfDepartures, services, active, ts + [t], date) ==
            |DeparturesOn(services, active, ts + [t], date)| - |StoplessOn(services, active, ts + [t], date)|
  {
    hide DayTotal, Runs, Departures, OnDate, RunsOn, DeparturesOn, StoplessOn, Line, Grid, TripsOk;
    var n, m: nat := Runs(t), if t.stopTimes == 0 then 0 else t.stopTimes - 1;
    DayWithTrip(OfRuns, services, active, ts, t, date);
    DayWithTrip(OfDepartures, services, active, ts, t, date);
    OnDateMeans(services, active, t, date);
    DeparturesAre(t, m);
    RunsWithTrip(services, active, ts, t, date);
    DeparturesWithTrip(services, active, ts, t, date);
    LineSize(|ts|, n);
    GridSize(|ts|, n, m);
    NewRunsApart(services, active, ts, date, n, m);
    UnionSize(RunsOn(services, active, ts, date), Line(|ts|, n));
    UnionSize(StoplessOn(services, active, ts, date), Line(|ts|, n));
    UnionSize(DeparturesOn(services, active, ts, date), Grid(|ts|, n, m));
  }

  lemma UnionSize<T>(s: set<T>, t: set<T>)
    requires s !! t
    ensures |s + t| == |s| + |t| && s + {} == s
  {
  }

  lemma OnDateMeans(services: seq<string>, active: Activity, t: Trip, date: Date)
    ensures OnDate(services, active, t, date) <==> t.service in services && active(t.service, date)
  {
  }

  lemma DeparturesAre(t: Trip, m: nat)
    requires HeadwaysOk(t.headways) && m == if t.stopTimes == 0 then 0 else t.stopTimes - 1
    ensures Departures(t) == m * Runs(t) - if t.stopTimes == 0 then Runs(t) else 0
  {
    hide Runs;
  }

  lemma NewRunsApart(services: seq<string>, active: Activity, ts: seq<Trip>, date: Date, n: nat, m: nat)
    requires TripsOk(ts)
    ensures RunsOn(services, active, ts, date) !! Line(|ts|, n) && StoplessOn(services, active, ts, date) !! Line(|ts|, n)
    ensures DeparturesOn(services, active, ts, date) !! Grid(|ts|, n, m)
  {
    hide Goes, OnDate;
  }

  /**
   What one more trip adds on a date on which its service runs: without any start time of its periods one trip, and one
   departure for each stop but the last; otherwise that for each start time.
   */
  lemma TripAdds(services: seq<string>, active: Activity, ts: seq<Trip>, t: Trip, date: Date)
    requires Distinct(services) && TripsOk(ts + [t]) && TripsOk(ts) && HeadwaysOk(t.headways)
    ensures var before, after := DayCountOf(services, active, ts, date), DayCountOf(services, active, ts + [t], date);
            var times := AllRuns(t.headways);
            if !OnDate(services, active, t, date) then after == before
            else if times == [] then
              after.trips == before.trips + 1 && after.departures == before.departures + (t.stopTimes - 1)
            else
              after.trips == before.trips + |times| && after.departures == before.departures + (t.stopTimes - 1) * |times|
  {
    hide DayTotal;
    AllRunsCount(t.headways);
    DayWithTrip(OfRuns, services, active, ts, t, date);
    DayWithTrip(OfDepartures, services, active, ts, t, date);
  }

  // ---------- the same over a range of dates ----------

  /** Members of one set for each number below |s|: which number, and which member. */
  ghost function Tagged<T>(s: seq<set<T>>): set<(int, T)> {
    set d, x | 0 <= d < |s| && x in s[d] :: (d, x)
  }

  ghost function TaggedWith<T>(d: int, s: set<T>): set<(int, T)> {
    set x | x in s :: (d, x)
  }

  lemma {:induction false} TaggedWithSize<T>(d: int, s: set<T>)
    ensures |TaggedWith(d, s)| == |s|
    decreases s
  {
    if s == {} {
      assert TaggedWith(d, s) == {};
    } else {
      var x :| x in s;
      TaggedWithSize(d, s - {x});
      assert TaggedWith(d, s) == TaggedWith(d, s - {x}) + {(d, x)};
    }
  }

  lemma TaggedSnoc<T>(s: seq<set<T>>, x: set<T>)
    ensures |Tagged(s + [x])| == |Tagged(s)| + |x|
  {
    var all := s + [x];
    assert forall d :: 0 <= d < |s| ==> all[d] == s[d];
    assert Tagged(all) == Tagged(s) + TaggedWith(|s|, x);
    TaggedWithSize(|s|, x);
  }

  ghost function RunsOver(services: seq<string>, active: Activity, ts: seq<Trip>, ds: seq<Date>): seq<set<(int, int)>>
    requires TripsOk(ts)
  {
    seq(|ds|, i requires 0 <= i < |ds| => RunsOn(services, active, ts, ds[i]))
  }

  ghost function DeparturesOver(services: seq<string>, active: Activity, ts: seq<Trip>, ds: seq<Date>): seq<set<(int, int, int)>>
    requires TripsOk(ts)
  {
    seq(|ds|, i requires 0 <= i < |ds| => DeparturesOn(services, active, ts, ds[i]))
  }

  ghost function StoplessOver(services: seq<string>, active: Activity, ts: seq<Trip>, ds: seq<Date>): seq<set<(int, int)>>
    requires TripsOk(ts)
  {
    seq(|ds|, i requires 0 <= i < |ds| => StoplessOn(services, active, ts, ds[i]))
  }

  /** The totals over the dates count every run, and every departure, on each date once. */
  lemma {:induction false} RangeTotalsCount(services: seq<string>, active: Activity, ts: seq<Trip>, ds: seq<Date>)
    requires Distinct(services) && TripsOk(ts)
    ensures RangeTotal(OfRuns, services, active, ts, ds) == |Tagged(RunsOver(services, active, ts, ds))|
    ensures RangeTotal(OfDepartures, services, active, ts, ds) ==
            |Tagged(DeparturesOver(services, active, ts, ds))| - |Tagged(StoplessOver(services, active, ts, ds))|
    decreases |ds|
  {
    hide RunsOn, DeparturesOn, StoplessOn, DayTotal;
    if ds == [] {
      assert Tagged(RunsOver(services, active, ts, ds)) == {} && Tagged(DeparturesOver(services, active, ts, ds)) == {};
      assert Tagged(StoplessOver(services, active, ts, ds)) == {};
    } else {
      var init, d := ds[..|ds| - 1], ds[|ds| - 1];
      RangeTotalsCount(services, active, ts, init);
      DayTotalsCount(services, active, ts, d);
      OverSnoc(services, active, ts, ds);
      TaggedSnoc(RunsOver(services, active, ts, init), RunsOn(services, active, ts, d));
      TaggedSnoc(DeparturesOver(services, active, ts, init), DeparturesOn(services, active, ts, d));
      TaggedSnoc(StoplessOver(services, active, ts, init), StoplessOn(services, active, ts, d));
    }
  }

  lemma OverSnoc(services: seq<string>, active: Activity, ts: seq<Trip>, ds: seq<Date>)
    requires TripsOk(ts) && ds != []
    ensures var init, d := ds[..|ds| - 1], ds[|ds| - 1];
            && RunsOver(services, active, ts, ds) == RunsOver(services, active, ts, init) + [RunsOn(services, active, ts, d)]
            && DeparturesOver(services, active, ts, ds) == DeparturesOver(services, active, ts, init) + [DeparturesOn(services, active, ts, d)]
            && StoplessOver(services, active, ts, ds) == StoplessOver(services, active, ts, init) + [StoplessOn(services, active, ts, d)]
  {
    hide RunsOn, DeparturesOn, StoplessOn;
  }

  // ---------- the schedule's loops ----------

  function Get(counts: map<string, int>, service: string): int {
    if service in counts then counts[service] else 0
  }

  method CountTrips(ts: seq<Trip>) returns (trips: map<string, int>, departures: map<string, int>)
    requires TripsOk(ts)
    ensures forall id :: Get(trips, id) == CountOf(OfRuns, ts, id) && Get(departures, id) == CountOf(OfDepartures, ts, id)
  {
    trips, departures := map[], map[];
    for i := 0 to |ts|
      invariant forall id :: Get(trips, id) == CountOf(OfRuns, ts[..i], id)
      invariant forall id :: Get(departures, id) == CountOf(OfDepartures, ts[..i], id)
    {
      var t := ts[i];
      assert ts[..i + 1][..i] == ts[..i];
      var startTimes := GetFrequencyStartTimes(t.headways);
      var runs := 1;
      if startTimes != [] {
        runs := |startTimes|;
      }
      trips := trips[t.service := Get(trips, t.service) + runs];
      departures := departures[t.service := Get(departures, t.service) + (t.stopTimes - 1) * runs];
    }
    assert ts[..|ts|] == ts;
  }

  /** active is what the calendars of the periods say. */
  ghost predicate IsActivity(ids: seq<string>, periods: seq<ServicePeriod>, active: Activity)
    reads periods
  {
    && |ids| == |periods| && Distinct(ids)
    && (forall i :: 0 <= i < |periods| ==> DatesOk(periods[i].Value()))
    && (forall i, s :: 0 <= i < |periods| && IsDateString(s) ==>
          active(ids[i], Parse(s).value) == ActiveOn(periods[i].Value(), s))
  }

  function ActiveIds(ids: seq<string>, active: Activity, date: Date): seq<string> {
    if ids == [] then []
    else
      var id := ids[|ids| - 1];
      ActiveIds(ids[..|ids| - 1], active, date) + if active(id, date) then [id] else []
  }

  /** Exactly the known ids whose service runs. */
  lemma {:induction false} ActiveIdsAre(ids: seq<string>, active: Activity, date: Date, id: string)
    ensures id in ActiveIds(ids, active, date) <==> id in ids && active(id, date)
  {
    if ids != [] {
      ActiveIdsAre(ids[..|ids| - 1], active, date, id);
    }
  }

  /** days are the dates from first on, up to but not including end. */
  ghost predicate DaysFrom(days: seq<Date>, first: Date, end: Date) {
    && (forall i :: 0 <= i < |days| ==> IsDate(days[i]) && DateLess(days[i], end))
    && (forall d :: IsDate(d) && !DateLess(d, first) && DateLess(d, end) ==> d in days)
    && (forall i :: 0 < i < |days| ==> days[i] == NextDay(days[i - 1]))
    && (days != [] ==> days[0] == first)
  }

  /** For each date in the range, the services that run. */
  method GetServicePeriodsActiveEachDate(ids: seq<string>, periods: seq<ServicePeriod>, first: Date, end: Date, ghost active: Activity)
    returns (days: seq<Date>, services: seq<seq<string>>)
    requires IsActivity(ids, periods, active) && IsDate(first) && IsDate(end)
    ensures DaysFrom(days, first, end) && |services| == |days|
    ensures forall i :: 0 <= i < |days| ==> services[i] == ActiveIds(ids, active, days[i])
  {
    hide IsDate, NextDay, ActiveIds, IsActivity;
    days, services := [], [];
    var it := first;
    while DateLess(it, end)
      invariant IsDate(it) && !DateLess(it, first)
      invariant |services| == |days| && (days == [] ==> it == first) && (days != [] ==> days[0] == first && it == NextDay(days[|days| - 1]))
      invariant forall i :: 0 < i < |days| ==> days[i] == NextDay(days[i - 1])
      invariant forall i :: 0 <= i < |days| ==> IsDate(days[i]) && DateLess(days[i], end) && services[i] == ActiveIds(ids, active, days[i])
      invariant forall d :: IsDate(d) && !DateLess(d, first) && DateLess(d, it) ==> d in days
      decreases DateNumber(end) - DateNumber(it)
    {
      var today := PeriodsToday(ids, periods, it, active);
      StepDay(first, it, end, days);
      days, services := days + [it], services + [today];
      it := NextDay(it);
    }
  }

  lemma StepDay(first: Date, it: Date, end: Date, days: seq<Date>)
    requires IsDate(it) && IsDate(end) && IsDate(first) && DateLess(it, end) && !DateLess(it, first)
    requires forall d :: IsDate(d) && !DateLess(d, first) && DateLess(d, it) ==> d in days
    ensures IsDate(NextDay(it)) && DateNumber(it) < DateNumber(end) && DateNumber(it) < DateNumber(NextDay(it))
    ensures !DateLess(NextDay(it), first)
    ensures forall d :: IsDate(d) && !DateLess(d, first) && DateLess(d, NextDay(it)) ==> d in days + [it]
  {
    NextDayAdvances(it);
    DateNumbersOrder(it, end);
    NextDayIsSuccessor(it, first);
    forall d | IsDate(d) && !DateLess(d, first) && DateLess(d, NextDay(it))
      ensures d in days + [it]
    {
      NextDayIsSuccessor(it, d);
    }
  }

  method PeriodsToday(ids: seq<string>, periods: seq<ServicePeriod>, date: Date, ghost active: Activity) returns (today: seq<string>)
    requires IsActivity(ids, periods, active) && IsDate(date)
    ensures today == ActiveIds(ids, active, date)
  {
    today := [];
    ParseFormat(date);
    var s := Format(date);
    for i := 0 to |periods|
      invariant today == ActiveIds(ids[..i], active, date)
    {
      assert ids[..i + 1][..i] == ids[..i];
      var isActive := periods[i].IsActiveOn(s);
      if isActive {
        today := today + [ids[i]];
      }
    }
    assert ids[..|ids|] == ids;
  }

  lemma {:induction false} SumOfActive(m: Measure, ids: seq<string>, active: Activity, ts: seq<Trip>, date: Date)
    requires TripsOk(ts)
    ensures DayTotal(m, ids, active, ts, date) == SumOf(m, ts, ActiveIds(ids, active, date))
  {
    if ids != [] {
      var init, id := ids[..|ids| - 1], ids[|ids| - 1];
      SumOfActive(m, init, active, ts, date);
      if active(id, date) {
        SumOfSnoc(m, ts, ActiveIds(init, active, date), id);
      } else {
        assert ActiveIds(ids, active, date) == ActiveIds(init, active, date);
      }
    }
  }

  lemma {:induction false} SumOfSnoc(m: Measure, ts: seq<Trip>, ids: seq<string>, id: string)
    requires TripsOk(ts)
    ensures SumOf(m, ts, ids + [id]) == SumOf(m, ts, ids) + CountOf(m, ts, id)
  {
    assert (ids + [id])[..|ids|] == ids;
  }

  function SumOf(m: Measure, ts: seq<Trip>, ids: seq<string>): int
    requires TripsOk(ts)
  {
    if ids == [] then 0 else SumOf(m, ts, ids[..|ids| - 1]) + CountOf(m, ts, ids[|ids| - 1])
  }

  method DayCounts(ids: seq<string>, trips: map<string, int>, departures: map<string, int>, ghost ts: seq<Trip>)
    returns (dayTrips: int, dayDepartures: int)
    requires TripsOk(ts)
    requires forall id :: Get(trips, id) == CountOf(OfRuns, ts, id) && Get(departures, id) == CountOf(OfDepartures, ts, id)
    ensures dayTrips == SumOf(OfRuns, ts, ids) && dayDepartures == SumOf(OfDepartures, ts, ids)
  {
    dayTrips, dayDepartures := 0, 0;
    for i := 0 to |ids|
      invariant dayTrips == SumOf(OfRuns, ts, ids[..i]) && dayDepartures == SumOf(OfDepartures, ts, ids[..i])
    {
      assert ids[..i + 1][..i] == ids[..i];
      dayTrips := dayTrips + Get(trips, ids[i]);
      dayDepartures := dayDepartures + Get(departures, ids[i]);
    }
    assert ids[..|ids|] == ids;
  }

  function DayCountOf(ids: seq<string>, active: Activity, ts: seq<Trip>, date: Date): DayCount
    requires TripsOk(ts)
  {
    DayCount(date, DayTotal(OfRuns, ids, active, ts, date), DayTotal(OfDepartures, ids, active, ts, date))
  }

  function DatesOf(counts: seq<DayCount>): (r: seq<Date>)
    ensures |r| == |counts|
  {
    seq(|counts|, i requires 0 <= i < |counts| => counts[i].date)
  }

  /** count has the numbers of runs and of departures on its date. */
  ghost predicate CountsDay(ids: seq<string>, active: Activity, ts: seq<Trip>, count: DayCount)
    requires TripsOk(ts)
  {
    && count.trips == |RunsOn(ids, active, ts, count.date)|
    && count.departures == |DeparturesOn(ids, active, ts, count.date)| - |StoplessOn(ids, active, ts, count.date)|
  }

  /** The counts of each date of the range; summed up, each run and each departure counts on each date that it is made. */
  method GenerateDateTripsDeparturesList(ids: seq<string>, periods: seq<ServicePeriod>, ts: seq<Trip>, first: Date, end: Date,
                                         ghost active: Activity)
    returns (counts: seq<DayCount>)
    requires IsActivity(ids, periods, active) && TripsOk(ts) && IsDate(first) && IsDate(end)
    ensures DaysFrom(DatesOf(counts), first, end)
    ensures forall i :: 0 <= i < |counts| ==> counts[i] == DayCountOf(ids, active, ts, counts[i].date)
    ensures TripsOf(counts) == TripTotal(OfRuns, ids, active, ts, DatesOf(counts))
    ensures DeparturesOf(counts) == TripTotal(OfDepartures, ids, active, ts, DatesOf(counts))
    ensures forall i :: 0 <= i < |counts| ==> CountsDay(ids, active, ts, counts[i])
    ensures TripsOf(counts) == |Tagged(RunsOver(ids, active, ts, DatesOf(counts)))|
    ensures DeparturesOf(counts) ==
            |Tagged(DeparturesOver(ids, active, ts, DatesOf(counts)))| - |Tagged(StoplessOver(ids, active, ts, DatesOf(counts)))|
  {
    hide DaysFrom, RunsOn, DeparturesOn, StoplessOn, DayTotal, SumOf, TripTotal;
    var trips, departures := CountTrips(ts);
    var dates, services := GetServicePeriodsActiveEachDate(ids, periods, first, end, active);
    counts := [];
    for i := 0 to |dates|
      invariant |counts| == i
      invariant forall k :: 0 <= k < i ==> counts[k] == DayCountOf(ids, active, ts, dates[k])
    {
      var dayTrips, dayDepartures := DayCounts(services[i], trips, departures, ts);
      SumOfActive(OfRuns, ids, active, ts, dates[i]);
      SumOfActive(OfDepartures, ids, active, ts, dates[i]);
      counts := counts + [DayCount(dates[i], dayTrips, dayDepartures)];
    }
    assert DatesOf(counts) == dates;
    SumsAreTotals(counts, ids, active, ts, dates);
    CountsAreConserved(OfRuns, ids, active, ts, dates);
    CountsAreConserved(OfDepartures, ids, active, ts, dates);
    RangeTotalsCount(ids, active, ts, dates);
    forall i | 0 <= i < |counts|
      ensures CountsDay(ids, active, ts, counts[i])
    {
      DayTotalsCount(ids, active, ts, counts[i].date);
    }
  }

  function TripsOf(counts: seq<DayCount>): int {
    if counts == [] then 0 else TripsOf(counts[..|counts| - 1]) + counts[|counts| - 1].trips
  }

  function DeparturesOf(counts: seq<DayCount>): int {
    if counts == [] then 0 else DeparturesOf(counts[..|counts| - 1]) + counts[|counts| - 1].departures
  }

  lemma {:induction false} SumsAreTotals(counts: seq<DayCount>, ids: seq<string>, active: Activity, ts: seq<Trip>, days: seq<Date>)
    requires TripsOk(ts) && |counts| == |days|
    requires forall i :: 0 <= i < |days| ==> counts[i] == DayCountOf(ids, active, ts, days[i])
    ensures TripsOf(counts) == RangeTotal(OfRuns, ids, active, ts, days)
    ensures DeparturesOf(counts) == RangeTotal(OfDepartures, ids, active, ts, days)
    decreases |days|
  {
    if days != [] {
      SumsAreTotals(counts[..|counts| - 1], ids, active, ts, days[..|days| - 1]);
    }
  }
}
