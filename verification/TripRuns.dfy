/** Trips that run at regular intervals. */
module TripRuns {

  /** A period, in seconds since midnight, and the seconds from run to run. */
  datatype Headway = Headway(start: int, end: int, secs: int)

  ghost predicate HeadwaysOk(hs: seq<Headway>) {
    forall i :: 0 <= i < |hs| ==> hs[i].secs > 0
  }

  /** Every period has a first run. */
  ghost predicate NonEmpty(hs: seq<Headway>) {
    forall i :: 0 <= i < |hs| ==> hs[i].start < hs[i].end
  }

  /** How many runs start in a period: the length over the headway, rounded up. */
  function RunCount(h: Headway): nat
    requires h.secs > 0
  {
    if h.start < h.end then (h.end - h.start + h.secs - 1) / h.secs else 0
  }

  function RunsOf(h: Headway): (r: seq<int>)
    requires h.secs > 0
    ensures |r| == RunCount(h)
  {
    seq(RunCount(h), i => h.start + i * h.secs)
  }

  function AllRuns(hs: seq<Headway>): seq<int>
    requires HeadwaysOk(hs)
  {
    if hs == [] then [] else AllRuns(hs[..|hs| - 1]) + RunsOf(hs[|hs| - 1])
  }

  function TotalCount(hs: seq<Headway>): nat
    requires HeadwaysOk(hs)
  {
    if hs == [] then 0 else TotalCount(hs[..|hs| - 1]) + RunCount(hs[|hs| - 1])
  }

  lemma {:induction false} AllRunsCount(hs: seq<Headway>)
    requires HeadwaysOk(hs)
    ensures |AllRuns(hs)| == TotalCount(hs)
  {
    if hs != [] {
      AllRunsCount(hs[..|hs| - 1]);
    }
  }

  /** Counting up by the headway reaches the end after that many runs. */
  lemma RunCountIs(h: Headway, n: nat)
    requires h.secs > 0
    ensures h.start + n * h.secs < h.end <==> n < RunCount(h)
  {
    if h.start < h.end {
      var x := h.end - h.start;
      var c := RunCount(h);
      assert c * h.secs <= x + h.secs - 1 < c * h.secs + h.secs;
      if n < c {
        Scale(n, c - 1, h.secs);
        assert (c - 1) * h.secs == c * h.secs - h.secs;
      } else {
        Scale(c, n, h.secs);
      }
    } else {
      Scale(0, n, h.secs);
    }
  }

  lemma Scale(a: int, b: int, k: int)
    requires a <= b && k > 0
    ensures a * k <= b * k
    ensures a < b ==> a * k < b * k
  {
    assert (b - a) * k >= 0;
    if a < b {
      assert (b - a) * k == (b - a - 1) * k + k;
      assert (b - a - 1) * k >= 0;
    }
  }

  /** t lies in the period, n headways from its start. */
  predicate StartsAt(h: Headway, t: int, n: int) {
    0 <= n && t == h.start + n * h.secs && t < h.end
  }

  /** The run times are those that lie in some period at a whole number of headways from its start. */
  lemma {:induction false} RunsAre(hs: seq<Headway>, t: int)
    requires HeadwaysOk(hs)
    ensures t in AllRuns(hs) <==> exists j, n :: 0 <= j < |hs| && StartsAt(hs[j], t, n)
    decreases |hs|
  {
    hide StartsAt, RunsOf;
    if hs != [] {
      var init, h := hs[..|hs| - 1], hs[|hs| - 1];
      RunsAre(init, t);
      RunsOfPeriod(h, t);
      if n :| StartsAt(h, t, n) {
        assert StartsAt(hs[|hs| - 1], t, n);
      }
      if j, n :| 0 <= j < |hs| && StartsAt(hs[j], t, n) {
        assert j < |init| ==> StartsAt(init[j], t, n);
      }
      if j, n :| 0 <= j < |init| && StartsAt(init[j], t, n) {
        assert StartsAt(hs[j], t, n);
      }
    }
  }

  lemma RunsOfPeriod(h: Headway, t: int)
    requires h.secs > 0
    ensures t in RunsOf(h) <==> exists n :: StartsAt(h, t, n)
  {
    if n :| StartsAt(h, t, n) {
      RunCountIs(h, n);
      assert RunsOf(h)[n] == t;
    }
    if t in RunsOf(h) {
      var n :| 0 <= n < RunCount(h) && RunsOf(h)[n] == t;
      RunCountIs(h, n);
      assert StartsAt(h, t, n);
    }
  }

  method GetFrequencyStartTimes(hs: seq<Headway>) returns (times: seq<int>)
    requires HeadwaysOk(hs)
    ensures times == AllRuns(hs) && |times| == TotalCount(hs)
  {
    times := [];
    for i := 0 to |hs|
      invariant times == AllRuns(hs[..i])
    {
      assert hs[..i + 1][..i] == hs[..i];
      var more := StartTimes(hs[i]);
      times := times + more;
    }
    assert hs[..|hs|] == hs;
    AllRunsCount(hs);
  }

  method StartTimes(h: Headway) returns (times: seq<int>)
    requires h.secs > 0
    ensures times == RunsOf(h)
  {
    times := [];
    var run := h.start;
    while run < h.end
      invariant run == h.start + |times| * h.secs && |times| <= RunCount(h)
      invariant forall k :: 0 <= k < |times| ==> times[k] == h.start + k * h.secs
      decreases h.end - run
    {
      RunCountIs(h, |times|);
      assert (|times| + 1) * h.secs == |times| * h.secs + h.secs;
      times := times + [run];
      run := run + h.secs;
    }
    RunCountIs(h, |times|);
  }

  // ---------- overlapping periods ----------

  predicate Overlap(h: Headway, other: Headway) {
    other.start < h.end && other.end > h.start
  }

  predicate In(t: int, h: Headway) {
    h.start <= t < h.end
  }

  /** Two periods that are not empty overlap exactly if some second lies in both; periods that only touch do not. */
  lemma OverlapIffCommonSecond(h: Headway, other: Headway)
    requires h.start < h.end && other.start < other.end
    ensures Overlap(h, other) <==> exists t :: In(t, h) && In(t, other)
  {
    if Overlap(h, other) {
      var t := if h.start < other.start then other.start else h.start;
      assert In(t, h) && In(t, other);
    }
  }

  ghost predicate NoOverlap(hs: seq<Headway>) {
    forall i, j :: 0 <= i < j < |hs| ==> !Overlap(hs[i], hs[j])
  }

  /** Of two pairs of places, the one that is looked at first. */
  ghost predicate Earlier(p: (int, int), q: (int, int)) {
    p.0 < q.0 || (p.0 == q.0 && p.1 < q.1)
  }

  ghost predicate OverlapAt(hs: seq<Headway>, p: (int, int)) {
    0 <= p.0 < p.1 < |hs| && Overlap(hs[p.0], hs[p.1])
  }

  /** The problems are those of the pairs of places, which are different and in order. */
  ghost predicate ProblemsOf(hs: seq<Headway>, problems: seq<(Headway, Headway)>, pairs: seq<(int, int)>) {
    && |problems| == |pairs|
    && (forall k :: 0 <= k < |pairs| ==> OverlapAt(hs, pairs[k]) && problems[k] == (hs[pairs[k].0], hs[pairs[k].1]))
    && (forall k, l :: 0 <= k < l < |pairs| ==> Earlier(pairs[k], pairs[l]))
  }

  /** One problem for each two places with overlapping periods, and no other. */
  method ValidateFrequencies(hs: seq<Headway>) returns (problems: seq<(Headway, Headway)>, ghost pairs: seq<(int, int)>)
    ensures ProblemsOf(hs, problems, pairs)
    ensures forall i, j :: OverlapAt(hs, (i, j)) ==> (i, j) in pairs
    ensures problems == [] <==> NoOverlap(hs)
  {
    problems, pairs := [], [];
    for i := 0 to |hs|
      invariant ProblemsOf(hs, problems, pairs)
      invariant forall p :: p in pairs ==> p.0 < i
      invariant forall k, j :: OverlapAt(hs, (k, j)) && k < i ==> (k, j) in pairs
    {
      for j := i + 1 to |hs|
        invariant ProblemsOf(hs, problems, pairs)
        invariant forall p :: p in pairs ==> Earlier(p, (i, j))
        invariant forall k, l :: OverlapAt(hs, (k, l)) && Earlier((k, l), (i, j)) ==> (k, l) in pairs
      {
        if hs[j].start < hs[i].end && hs[j].end > hs[i].start {
          problems, pairs := problems + [(hs[i], hs[j])], pairs + [(i, j)];
        }
      }
    }
    forall i, j | 0 <= i < j < |hs| && Overlap(hs[i], hs[j])
      ensures problems != []
    {
      assert OverlapAt(hs, (i, j));
    }
    assert problems != [] ==> OverlapAt(hs, pairs[0]);
  }

  // ---------- runs do not coincide, and are in order if the periods are ----------

  /** A run starts within its period. */
  lemma RunInPeriod(h: Headway, t: int)
    requires h.secs > 0 && t in RunsOf(h)
    ensures h.start <= t < h.end
  {
    var k :| 0 <= k < RunCount(h) && RunsOf(h)[k] == t;
    RunCountIs(h, k);
    Scale(0, k, h.secs);
  }

  lemma {:induction false} RunHasPeriod(hs: seq<Headway>, t: int) returns (i: nat)
    requires HeadwaysOk(hs) && t in AllRuns(hs)
    ensures i < |hs| && t in RunsOf(hs[i])
  {
    var init, last := hs[..|hs| - 1], hs[|hs| - 1];
    if t in RunsOf(last) {
      i := |hs| - 1;
    } else {
      i := RunHasPeriod(init, t);
    }
  }

  lemma RunsIncrease(h: Headway)
    requires h.secs > 0
    ensures forall i, j :: 0 <= i < j < RunCount(h) ==> RunsOf(h)[i] < RunsOf(h)[j]
  {
    forall i, j | 0 <= i < j < RunCount(h)
      ensures RunsOf(h)[i] < RunsOf(h)[j]
    {
      Scale(i, j, h.secs);
    }
  }

  ghost predicate AllDifferent(s: seq<int>) {
    forall i, j :: 0 <= i < j < |s| ==> s[i] != s[j]
  }

  /** If validation reports nothing, no two runs start at the same time. */
  lemma {:induction false} RunsAreDistinct(hs: seq<Headway>)
    requires HeadwaysOk(hs) && NoOverlap(hs)
    ensures AllDifferent(AllRuns(hs))
  {
    if hs != [] {
      var init, last := hs[..|hs| - 1], hs[|hs| - 1];
      RunsAreDistinct(init);
      RunsIncrease(last);
      forall t | t in AllRuns(init) && t in RunsOf(last)
        ensures false
      {
        var i := RunHasPeriod(init, t);
        RunInPeriod(init[i], t);
        RunInPeriod(last, t);
        assert Overlap(hs[i], hs[|hs| - 1]);
      }
      DifferentConcat(AllRuns(init), RunsOf(last));
    }
  }

  lemma DifferentConcat(s: seq<int>, t: seq<int>)
    requires AllDifferent(s) && AllDifferent(t) && forall x :: !(x in s && x in t)
    ensures AllDifferent(s + t)
  {
    forall i, j | 0 <= i < |s| && 0 <= j < |t|
      ensures s[i] != t[j]
    {
      assert s[i] in s && t[j] in t;
    }
  }

  /** s is sorted; or strictly so. */
  ghost predicate Sorted(s: seq<int>, strict: bool) {
    forall i, j :: 0 <= i < j < |s| ==> Precedes(s[i], s[j], strict)
  }

  predicate Precedes(t: int, u: int, strict: bool) {
    t < u || (!strict && t == u)
  }

  function LastRun(h: Headway): int
    requires h.secs > 0
  {
    h.start + (RunCount(h) - 1) * h.secs
  }

  /** Of two periods with runs, the later one in the list starts after the last run of the other. */
  ghost predicate PeriodsFollow(hs: seq<Headway>, strict: bool)
    requires HeadwaysOk(hs)
  {
    forall i, j :: 0 <= i < j < |hs| && RunCount(hs[i]) > 0 && RunCount(hs[j]) > 0 ==> Precedes(LastRun(hs[i]), hs[j].start, strict)
  }

  /** The runs of a period lie from its start to its last run, both of which are runs. */
  lemma RunBounds(h: Headway)
    requires h.secs > 0
    ensures Sorted(RunsOf(h), true)
    ensures forall t :: t in RunsOf(h) ==> h.start <= t <= LastRun(h)
    ensures RunCount(h) > 0 ==> h.start in RunsOf(h) && LastRun(h) in RunsOf(h)
  {
    RunsIncrease(h);
    forall t | t in RunsOf(h)
      ensures h.start <= t <= LastRun(h)
    {
      var k :| 0 <= k < RunCount(h) && RunsOf(h)[k] == t;
      Scale(0, k, h.secs);
      Scale(k, RunCount(h) - 1, h.secs);
    }
    if RunCount(h) > 0 {
      assert RunsOf(h)[0] == h.start && RunsOf(h)[RunCount(h) - 1] == LastRun(h);
    }
  }

  /** For any periods, overlapping and empty ones too: the start times are sorted exactly if each period follows. */
  lemma {:induction false} SortedIffPeriodsFollow(hs: seq<Headway>, strict: bool)
    requires HeadwaysOk(hs)
    ensures Sorted(AllRuns(hs), strict) <==> PeriodsFollow(hs, strict)
  {
    if hs != [] {
      var init, last := hs[..|hs| - 1], hs[|hs| - 1];
      SortedIffPeriodsFollow(init, strict);
      RunBounds(last);
      SortedConcat(AllRuns(init), RunsOf(last), strict);
      LastFollows(hs, strict);
      assert PeriodsFollow(hs, strict) <==> PeriodsFollow(init, strict) && AllPrecede(AllRuns(init), RunsOf(last), strict);
    }
  }

  ghost predicate AllPrecede(s: seq<int>, t: seq<int>, strict: bool) {
    forall x, y :: x in s && y in t ==> Precedes(x, y, strict)
  }

  lemma SortedConcat(s: seq<int>, t: seq<int>, strict: bool)
    requires Sorted(t, true)
    ensures Sorted(s + t, strict) <==> Sorted(s, strict) && AllPrecede(s, t, strict)
  {
    if Sorted(s + t, strict) {
      forall x, y | x in s && y in t
        ensures Precedes(x, y, strict)
      {
        var i :| 0 <= i < |s| && s[i] == x;
        var j :| 0 <= j < |t| && t[j] == y;
        assert Precedes((s + t)[i], (s + t)[|s| + j], strict);
      }
      forall i, j | 0 <= i < j < |s|
        ensures Precedes(s[i], s[j], strict)
      {
        assert Precedes((s + t)[i], (s + t)[j], strict);
      }
    }
    if Sorted(s, strict) && AllPrecede(s, t, strict) {
      forall i, j | 0 <= i < |s| && 0 <= j < |t|
        ensures Precedes(s[i], t[j], strict)
      {
        assert s[i] in s && t[j] in t;
      }
    }
  }

  /** The last period follows all others exactly if all their runs precede its runs. */
  lemma LastFollows(hs: seq<Headway>, strict: bool)
    requires HeadwaysOk(hs) && hs != []
    ensures var n := |hs| - 1;
            AllPrecede(AllRuns(hs[..n]), RunsOf(hs[n]), strict) <==>
            forall i :: 0 <= i < n && RunCount(hs[i]) > 0 && RunCount(hs[n]) > 0 ==> Precedes(LastRun(hs[i]), hs[n].start, strict)
  {
    var n := |hs| - 1;
    var s, t := AllRuns(hs[..n]), RunsOf(hs[n]);
    RunBounds(hs[n]);
    if AllPrecede(s, t, strict) {
      forall i | 0 <= i < n && RunCount(hs[i]) > 0 && RunCount(hs[n]) > 0
        ensures Precedes(LastRun(hs[i]), hs[n].start, strict)
      {
        RunBounds(hs[i]);
        RunIsListed(hs[..n], i, LastRun(hs[i]));
      }
    } else {
      var x, y :| x in s && y in t && !Precedes(x, y, strict);
      var i := RunHasPeriod(hs[..n], x);
      RunBounds(hs[i]);
    }
  }

  lemma {:induction false} RunIsListed(hs: seq<Headway>, i: nat, t: int)
    requires HeadwaysOk(hs) && i < |hs| && t in RunsOf(hs[i])
    ensures t in AllRuns(hs)
    decreases |hs|
  {
    if i < |hs| - 1 {
      RunIsListed(hs[..|hs| - 1], i, t);
    }
  }

  ghost predicate PeriodsInOrder(hs: seq<Headway>) {
    forall i, j :: 0 <= i < j < |hs| ==> hs[i].start < hs[j].start
  }

  /** Where validation reports nothing and no period is empty, that is to say if the periods were given in order. */
  lemma ValidRunsSortedIff(hs: seq<Headway>)
    requires HeadwaysOk(hs) && NonEmpty(hs) && NoOverlap(hs)
    ensures Sorted(AllRuns(hs), false) <==> PeriodsInOrder(hs)
  {
    SortedIffPeriodsFollow(hs, false);
    forall i, j | 0 <= i < j < |hs|
      ensures RunCount(hs[i]) > 0 && RunCount(hs[j]) > 0
      ensures Precedes(LastRun(hs[i]), hs[j].start, false) <==> hs[i].start < hs[j].start
    {
      ApartInOrder(hs[i], hs[j]);
    }
  }

  lemma ApartInOrder(h: Headway, other: Headway)
    requires h.secs > 0 && other.secs > 0 && h.start < h.end && other.start < other.end && !Overlap(h, other)
    ensures RunCount(h) > 0 && RunCount(other) > 0
    ensures LastRun(h) <= other.start <==> h.start < other.start
  {
    RunCountIs(h, 0);
    RunCountIs(other, 0);
    RunBounds(h);
    RunInPeriod(h, LastRun(h));
  }

  /** Overlapping periods in order need not give sorted start times. */
  lemma OrderedPeriodsUnsorted()
    ensures var hs := [Headway(0, 10, 5), Headway(3, 15, 5)];
            HeadwaysOk(hs) && PeriodsInOrder(hs) && !Sorted(AllRuns(hs), false)
  {
    var hs := [Headway(0, 10, 5), Headway(3, 15, 5)];
    SortedIffPeriodsFollow(hs, false);
    assert RunCount(hs[0]) == 2 && RunCount(hs[1]) == 3;
    assert !Precedes(LastRun(hs[0]), hs[1].start, false);
  }
}
