/** Consecutive dates without service. */
module ServiceGaps {
  import opened Wrappers
  import opened Dates
  import opened TripCounts

  datatype Gap = Gap(first: Date, last: Date, days: nat)

  /** The dates from i to before n are without trips, and the date before them is not. */
  ghost predicate IsRunUpTo(counts: seq<DayCount>, i: int, n: int) {
    && 0 <= i <= n <= |counts|
    && (forall k :: i <= k < n ==> counts[k].trips == 0)
    && (i == 0 || counts[i - 1].trips != 0)
  }

  /** Nor is the date after them: the run is as long as can be. */
  ghost predicate IsRun(counts: seq<DayCount>, i: int, j: int) {
    IsRunUpTo(counts, i, j) && (j == |counts| || counts[j].trips != 0)
  }

  /** g tells of the dates from i to before j. */
  ghost predicate Tells(counts: seq<DayCount>, i: int, j: int, g: Gap) {
    0 <= i <= j <= |counts| && g.days == j - i
    && (i < j ==> g.first == counts[i].date && g.last == counts[j - 1].date)
  }

  /**
   The reports tell, in order, of the runs that start at starts and end at ends: these are all runs at least as
   long as the interval that end before n.
   */
  ghost predicate Reported(counts: seq<DayCount>, interval: int, n: int, gaps: seq<Gap>, starts: seq<int>, ends: seq<int>) {
    && |starts| == |ends| == |gaps|
    && (forall k :: 0 <= k < |gaps| ==> IsRun(counts, starts[k], ends[k]) && ends[k] < n)
    && (forall k :: 0 <= k < |gaps| ==> Tells(counts, starts[k], ends[k], gaps[k]) && gaps[k].days >= interval)
    && (forall k, l :: 0 <= k < l < |gaps| ==> ends[k] < starts[l])
    && (forall i, j :: IsRun(counts, i, j) && j - i >= interval && j < n ==> i in starts)
  }

  /** Only one run ends at a place. */
  lemma RunsStartOnce(counts: seq<DayCount>, i: int, k: int, n: int)
    requires IsRunUpTo(counts, i, n) && IsRunUpTo(counts, k, n)
    ensures i == k
  {
  }

  lemma AddReport(counts: seq<DayCount>, interval: int, n: int, gaps: seq<Gap>, starts: seq<int>, ends: seq<int>, i: int, g: Gap)
    requires Reported(counts, interval, n, gaps, starts, ends)
    requires IsRun(counts, i, n) && Tells(counts, i, n, g) && g.days >= interval
    ensures Reported(counts, interval, n + 1, gaps + [g], starts + [i], ends + [n])
  {
    forall k | 0 <= k < |gaps|
      ensures ends[k] < i
    {
      RunEndsBefore(counts, starts[k], ends[k], i, n);
    }
    forall k, j | IsRun(counts, k, j) && j - k >= interval && j < n + 1
      ensures k in starts + [i]
    {
      if j == n {
        RunsStartOnce(counts, i, k, n);
      }
    }
  }

  lemma RunEndsBefore(counts: seq<DayCount>, i: int, j: int, k: int, n: int)
    requires IsRun(counts, i, j) && IsRunUpTo(counts, k, n) && j < n
    ensures j < k
  {
  }

  lemma NoReport(counts: seq<DayCount>, interval: int, n: int, gaps: seq<Gap>, starts: seq<int>, ends: seq<int>, i: int)
    requires Reported(counts, interval, n, gaps, starts, ends)
    requires IsRunUpTo(counts, i, n) && (!IsRun(counts, i, n) || n - i < interval)
    ensures Reported(counts, interval, n + 1, gaps, starts, ends)
  {
    forall k, j | IsRun(counts, k, j) && j - k >= interval && j < n + 1
      ensures k in starts
    {
      if j == n {
        RunsStartOnce(counts, i, k, n);
      }
    }
  }

  /**
   Reports all runs of dates without trips that are at least as long as the interval, in order and each once.  All
   reports are of one date or more exactly if the interval is at least one, or there is no place for an empty run:
   at an end that has trips, or between two dates that do.
   */
  method ValidateServiceGaps(counts: seq<DayCount>, start: Date, interval: int)
    returns (gaps: seq<Gap>, ghost starts: seq<int>, ghost ends: seq<int>)
    ensures Reported(counts, interval, |counts| + 1, gaps, starts, ends)
    ensures (forall k :: 0 <= k < |gaps| ==> gaps[k].days > 0) <==> interval >= 1 || forall i :: !IsRun(counts, i, i)
  {
    var first, last, days := start, start, 0;
    starts, ends, gaps := [], [], [];
    for n := 0 to |counts|
      invariant 0 <= days <= n && IsRunUpTo(counts, n - days, n)
      invariant days > 0 ==> Tells(counts, n - days, n, Gap(first, last, days))
      invariant Reported(counts, interval, n, gaps, starts, ends)
    {
      if counts[n].trips == 0 {
        NoReport(counts, interval, n, gaps, starts, ends, n - days);
        if days == 0 {
          first := counts[n].date;
        }
        days, last := days + 1, counts[n].date;
      } else {
        gaps, starts, ends := EndRun(counts, interval, n, Gap(first, last, days), gaps, starts, ends);
        days := 0;
      }
    }
    gaps, starts, ends := EndRun(counts, interval, |counts|, Gap(first, last, days), gaps, starts, ends);
    EmptyReports(counts, interval, gaps, starts, ends);
  }

  /** The run that ends here is reported if it is long enough. */
  method EndRun(ghost counts: seq<DayCount>, interval: int, ghost n: int, gap: Gap,
                before: seq<Gap>, ghost starts0: seq<int>, ghost ends0: seq<int>)
    returns (gaps: seq<Gap>, ghost starts: seq<int>, ghost ends: seq<int>)
    requires IsRun(counts, n - gap.days, n) && (gap.days > 0 ==> Tells(counts, n - gap.days, n, gap))
    requires Reported(counts, interval, n, before, starts0, ends0)
    ensures Reported(counts, interval, n + 1, gaps, starts, ends)
  {
    gaps, starts, ends := before, starts0, ends0;
    if gap.days >= interval {
      AddReport(counts, interval, n, gaps, starts, ends, n - gap.days, gap);
      gaps, starts, ends := gaps + [gap], starts + [n - gap.days], ends + [n];
    } else {
      NoReport(counts, interval, n, gaps, starts, ends, n - gap.days);
    }
  }

  lemma EmptyReports(counts: seq<DayCount>, interval: int, gaps: seq<Gap>, starts: seq<int>, ends: seq<int>)
    requires Reported(counts, interval, |counts| + 1, gaps, starts, ends)
    ensures (forall k :: 0 <= k < |gaps| ==> gaps[k].days > 0) <==> interval >= 1 || forall i :: !IsRun(counts, i, i)
  {
    if interval < 1 && exists i :: IsRun(counts, i, i) {
      var i :| IsRun(counts, i, i);
      assert i in starts;
      var k :| 0 <= k < |starts| && starts[k] == i;
      EmptyRunIsAlone(counts, i, ends[k]);
    }
    forall k | 0 <= k < |gaps| && gaps[k].days == 0
      ensures interval < 1 && IsRun(counts, starts[k], starts[k])
    {
      assert Tells(counts, starts[k], ends[k], gaps[k]);
    }
  }

  lemma EmptyRunIsAlone(counts: seq<DayCount>, i: int, j: int)
    requires IsRun(counts, i, i) && IsRun(counts, i, j)
    ensures i == j
  {
  }
}
