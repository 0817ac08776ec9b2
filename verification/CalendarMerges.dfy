/** Making the calendars of the old and the new feed disjoint about a cutoff date, and checking that they are. */
module CalendarMerges {
  import opened Wrappers
  import opened Dates
  import opened Calendars
  import opened ServicePeriods

  /** The periods are distinct objects with both dates set. */
  ghost predicate PeriodsOk(ps: seq<ServicePeriod>)
    reads ps
  {
    && (forall i, j :: 0 <= i < j < |ps| ==> ps[i] != ps[j])
    && (forall p :: p in ps ==> DatesOk(p.Value()) && p.startDate.Some? && p.endDate.Some?)
  }

  method TruncateAll(ps: seq<ServicePeriod>, start: Option<string>, end: string)
    requires PeriodsOk(ps)
    modifies ps
    ensures forall p :: p in ps ==> p.Value() == Truncated(old(p.Value()), start, end)
  {
    hide Truncated;
    for i := 0 to |ps|
      invariant forall k :: i <= k < |ps| ==> ps[k].Value() == old(ps[k].Value())
      invariant forall k :: 0 <= k < i ==> ps[k].Value() == Truncated(old(ps[k].Value()), start, end)
    {
      assert forall k :: 0 <= k < |ps| && k != i ==> ps[k] != ps[i];
      ps[i].Truncate(start, end);
    }
  }

  /** after has exactly the dates of before that lie before the cutoff, or exactly those from it on. */
  ghost predicate CutAt(before: Calendar, after: Calendar, cutoff: string, keepsEarlier: bool)
    requires DatesOk(before)
  {
    DatesOk(after) &&
    forall s :: IsDateString(s) ==> (ActiveOn(after, s) <==> ActiveOn(before, s) && StrLess(s, cutoff) == keepsEarlier)
  }

  lemma CutBefore(c: Calendar, cutoff: string)
    requires DatesOk(c) && c.start.Some? && c.end.Some?
    requires IsDateString(cutoff) && Parse(cutoff).value != Date(1, 1, 1)
    ensures CutAt(c, Truncated(c, None, DayBefore(cutoff)), cutoff, true)
  {
    BeforeMeansUpToDayBefore(cutoff, cutoff);
    TruncatedBefore(c, DayBefore(cutoff), cutoff);
    forall s | IsDateString(s)
      ensures ActiveOn(Truncated(c, None, DayBefore(cutoff)), s) <==> ActiveOn(c, s) && StrLess(s, cutoff)
    {
      TruncatedBefore(c, DayBefore(cutoff), s);
      BeforeMeansUpToDayBefore(s, cutoff);
    }
  }

  lemma CutFrom(c: Calendar, cutoff: string)
    requires DatesOk(c) && c.start.Some? && c.end.Some? && IsDateString(cutoff)
    ensures CutAt(c, Truncated(c, Some(cutoff), FOREVER), cutoff, false)
  {
    TruncatedFrom(c, cutoff, cutoff);
    forall s | IsDateString(s)
      ensures ActiveOn(Truncated(c, Some(cutoff), FOREVER), s) <==> ActiveOn(c, s) && !StrLess(s, cutoff)
    {
      TruncatedFrom(c, cutoff, s);
    }
  }

  /** The calendars of the periods, with their date ranges. */
  ghost predicate RangesOf(ps: seq<ServicePeriod>, rs: seq<Range>)
    reads ps
  {
    |rs| == |ps| && forall i {:trigger RangeIs(ps[i].Value(), rs[i])} :: 0 <= i < |ps| ==> RangeIs(ps[i].Value(), rs[i])
  }

  ghost predicate AllApart(rs: seq<Range>, qs: seq<Range>) {
    forall i, j :: 0 <= i < |rs| && 0 <= j < |qs| ==> !RangesMeet(rs[i], qs[j])
  }

  /** Both calendars have date ranges, and these do not meet. */
  ghost predicate AlwaysApart(a: Calendar, b: Calendar) {
    exists r, q :: RangeIs(a, r) && RangeIs(b, q) && !RangesMeet(r, q)
  }

  lemma ApartIffRangesApart(a: Calendar, b: Calendar, r: Range, q: Range)
    requires RangeIs(a, r) && RangeIs(b, q)
    ensures AlwaysApart(a, b) <==> !RangesMeet(r, q)
  {
    if r', q' :| RangeIs(a, r') && RangeIs(b, q') && !RangesMeet(r', q') {
      RangeUnique(a, r, Some(r'.0), Some(r'.1));
      RangeUnique(b, q, Some(q'.0), Some(q'.1));
    }
  }

  /** Whatever the date ranges of the periods are, they are all apart exactly if the periods are, two by two. */
  lemma AllApartIffAlways(olds: seq<ServicePeriod>, news: seq<ServicePeriod>, rs: seq<Range>, qs: seq<Range>)
    requires RangesOf(olds, rs) && RangesOf(news, qs)
    ensures AllApart(rs, qs) <==> forall p, q :: p in olds && q in news ==> AlwaysApart(p.Value(), q.Value())
  {
    forall i, j | 0 <= i < |olds| && 0 <= j < |news|
      ensures AlwaysApart(olds[i].Value(), news[j].Value()) <==> !RangesMeet(rs[i], qs[j])
    {
      assert RangeIs(olds[i].Value(), rs[i]) && RangeIs(news[j].Value(), qs[j]);
      ApartIffRangesApart(olds[i].Value(), news[j].Value(), rs[i], qs[j]);
    }
  }

  ghost predicate HasRange(c: Calendar) {
    exists r :: RangeIs(c, r)
  }

  lemma {:induction false} RangesExist(ps: seq<ServicePeriod>) returns (rs: seq<Range>)
    requires forall p :: p in ps ==> HasRange(p.Value())
    ensures RangesOf(ps, rs)
    decreases |ps|
  {
    hide RangeIs;
    rs := [];
    if ps != [] {
      var init, last := ps[..|ps| - 1], ps[|ps| - 1];
      var before := RangesExist(init);
      var r :| RangeIs(last.Value(), r);
      rs := before + [r];
      forall i | 0 <= i < |ps|
        ensures RangeIs(ps[i].Value(), rs[i])
      {
        assert i < |init| ==> RangeIs(init[i].Value(), before[i]);
      }
    }
  }

  /**
   Each old period keeps exactly its dates before the cutoff, each new period exactly its dates from the
   cutoff on; and then, whatever their date ranges are, the check made before merging is satisfied.
   */
  method DisjoinCalendars(olds: seq<ServicePeriod>, news: seq<ServicePeriod>, cutoff: string)
    requires PeriodsOk(olds) && PeriodsOk(news) && forall p :: p in olds ==> p !in news
    requires IsDateString(cutoff) && Parse(cutoff).value != Date(1, 1, 1)
    modifies olds, news
    ensures forall p :: p in olds ==> CutAt(old(p.Value()), p.Value(), cutoff, true)
    ensures forall q :: q in news ==> CutAt(old(q.Value()), q.Value(), cutoff, false)
    ensures forall p, q :: p in olds && q in news ==> AlwaysApart(p.Value(), q.Value())
    ensures forall rs, qs :: RangesOf(olds, rs) && RangesOf(news, qs) ==> AllApart(rs, qs)
  {
    hide CutAt, AlwaysApart, AllApart, RangesOf;
    BeforeMeansUpToDayBefore(cutoff, cutoff);
    var before := DayBefore(cutoff);
    TruncateAll(olds, None, before);
    assert forall q :: q in news ==> q.Value() == old(q.Value());
    TruncateAll(news, Some(cutoff), FOREVER);
    forall p | p in olds
      ensures CutAt(old(p.Value()), p.Value(), cutoff, true)
    {
      CutBefore(old(p.Value()), cutoff);
    }
    forall q | q in news
      ensures CutAt(old(q.Value()), q.Value(), cutoff, false)
    {
      CutFrom(old(q.Value()), cutoff);
    }
    forall p, q | p in olds && q in news
      ensures AlwaysApart(p.Value(), q.Value())
    {
      CutApart(old(p.Value()), old(q.Value()), before, cutoff);
    }
    forall rs, qs | RangesOf(olds, rs) && RangesOf(news, qs)
      ensures AllApart(rs, qs)
    {
      AllApartIffAlways(olds, news, rs, qs);
    }
  }

  lemma CutApart(a: Calendar, b: Calendar, last: string, first: string)
    requires DatesOk(a) && a.start.Some? && a.end.Some? && DatesOk(b) && b.start.Some? && b.end.Some?
    requires IsDateString(last) && IsDateString(first) && StrLess(last, first)
    ensures AlwaysApart(Truncated(a, None, last), Truncated(b, Some(first), FOREVER))
  {
    TruncatedBefore(a, last, last);
    TruncatedFrom(b, first, first);
    var r := RangeExists(Truncated(a, None, last));
    var q := RangeExists(Truncated(b, Some(first), FOREVER));
    TruncatedApart(a, b, last, first, r, q);
  }

  /** For periods with the date ranges rs and qs: true exactly if no old range meets a new one. */
  method CheckDisjointCalendars(olds: seq<ServicePeriod>, news: seq<ServicePeriod>,
                                ghost rs: seq<Range>, ghost qs: seq<Range>) returns (disjoint: bool)
    requires RangesOf(olds, rs) && RangesOf(news, qs)
    ensures disjoint <==> AllApart(rs, qs)
  {
    for i := 0 to |olds|
      invariant forall k, j :: 0 <= k < i && 0 <= j < |qs| ==> !RangesMeet(rs[k], qs[j])
    {
      var aStart, aEnd := RangeOfPeriod(olds[i], olds, rs, i);
      for j := 0 to |news|
        invariant forall l :: 0 <= l < j ==> !RangesMeet(rs[i], qs[l])
      {
        var bStart, bEnd := RangeOfPeriod(news[j], news, qs, j);
        var overlapStart := if StrLess(aStart, bStart) then bStart else aStart;
        var overlapEnd := if StrLess(bEnd, aEnd) then bEnd else aEnd;
        if StrLe(overlapStart, overlapEnd) {
          assert RangesMeet(rs[i], qs[j]);
          return false;
        }
      }
    }
    return true;
  }

  method RangeOfPeriod(p: ServicePeriod, ghost ps: seq<ServicePeriod>, ghost rs: seq<Range>, ghost i: nat)
    returns (start: string, end: string)
    requires RangesOf(ps, rs) && i < |ps| && p == ps[i]
    ensures (start, end) == rs[i]
  {
    assert RangeIs(ps[i].Value(), rs[i]);
    var lo, hi := p.GetDateRange();
    RangeUnique(p.Value(), rs[i], lo, hi);
    start, end := lo.value, hi.value;
  }
}
