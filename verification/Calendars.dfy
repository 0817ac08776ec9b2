/** Service calendars as values: when a service runs, and the range of dates it covers. */
module Calendars {
  import opened Wrappers
  import opened Dates

  datatype ExceptionType = Add | Remove

  datatype Calendar = Calendar(
    start: Option<string>,
    end: Option<string>,
    week: seq<bool>,
    exceptions: map<string, ExceptionType>)

  const FIRST_YEAR := 1900
  const LAST_YEAR := 2100

  /** A date string whose year validation accepts. */
  predicate IsServiceDate(s: string) {
    IsDateString(s) && FIRST_YEAR <= Parse(s).value.y <= LAST_YEAR
  }

  /** All the dates given are dates. */
  predicate DatesOk(c: Calendar) {
    && |c.week| == 7
    && (c.start.Some? ==> IsDateString(c.start.value))
    && (c.end.Some? ==> IsDateString(c.end.value))
    && (forall s :: s in c.exceptions ==> IsDateString(s))
  }

  /** And they are within the years that validation accepts. */
  predicate CalendarOk(c: Calendar) {
    && |c.week| == 7
    && (c.start.Some? ==> IsServiceDate(c.start.value))
    && (c.end.Some? ==> IsServiceDate(c.end.value))
    && (forall s :: s in c.exceptions ==> IsServiceDate(s))
  }

  /** is_active_on. */
  predicate ActiveOn(c: Calendar, s: string)
    requires |c.week| == 7 && IsDateString(s)
  {
    if s in c.exceptions then c.exceptions[s] == Add
    else c.start.Some? && c.end.Some? && StrLe(c.start.value, s) && StrLe(s, c.end.value)
         && c.week[Weekday(Parse(s).value)]
  }

  /** In its range, and without an exception, a service runs on the days of its week; k is the days since the first Monday. */
  lemma RunsByWeekday(c: Calendar, s: string, k: nat)
    requires |c.week| == 7 && IsDateString(s) && s !in c.exceptions && c.start.Some? && c.end.Some?
    requires StrLe(c.start.value, s) && StrLe(s, c.end.value) && After(Date(1, 1, 1), k) == Parse(s).value
    ensures ActiveOn(c, s) <==> c.week[k % 7]
  {
    FirstOfMarkedYears();
    WeekdayAfter(Date(1, 1, 1), k);
  }

  /** A calendar of Mondays only runs on a Monday of its range and not on the day after. */
  lemma MondaysOnly()
    ensures var c := Calendar(Some("20240101"), Some("20241231"), [true, false, false, false, false, false, false], map[]);
            && IsDateString("20240101") && IsDateString("20240102")
            && ActiveOn(c, "20240101") && !ActiveOn(c, "20240102")
  {
    hide StrLe, Parse, Weekday;
    FirstOfMarkedYears();
    WeekdayAdvances(Date(2024, 1, 1));
    StringsOf2024();
    InRangeOf2024();
  }

  lemma StringsOf2024()
    ensures Parse("20240101") == Some(Date(2024, 1, 1)) && Parse("20240102") == Some(Date(2024, 1, 2))
    ensures Parse("20241231") == Some(Date(2024, 12, 31))
  {
  }

  lemma InRangeOf2024()
    ensures StrLe("20240101", "20240101") && StrLe("20240101", "20241231")
  {
    hide StrLess, Parse;
    StringsOf2024();
    StringOrderIsDateOrder("20240101", "20240101");
    StringOrderIsDateOrder("20241231", "20240101");
  }

  // ---------- the date range ----------

  ghost predicate IsAdded(c: Calendar, s: string) {
    s in c.exceptions && c.exceptions[s] == Add
  }

  /** lo is the earliest of start and the added dates, or else the end. */
  ghost predicate IsRangeStart(c: Calendar, lo: Option<string>) {
    && (lo.None? ==> c.start.None? && c.end.None? && forall s :: !IsAdded(c, s))
    && (lo.Some? ==>
          && (forall s :: IsAdded(c, s) ==> StrLe(lo.value, s))
          && (c.start.Some? ==> StrLe(lo.value, c.start.value))
          && (c.start == lo || IsAdded(c, lo.value)
              || (c.start.None? && c.end == lo && forall s :: !IsAdded(c, s))))
  }

  /** hi is the latest of end and the added dates, or else the start. */
  ghost predicate IsRangeEnd(c: Calendar, hi: Option<string>) {
    && (hi.None? ==> c.start.None? && c.end.None? && forall s :: !IsAdded(c, s))
    && (hi.Some? ==>
          && (forall s :: IsAdded(c, s) ==> StrLe(s, hi.value))
          && (c.end.Some? ==> StrLe(c.end.value, hi.value))
          && (c.end == hi || IsAdded(c, hi.value)
              || (c.end.None? && c.start == hi && forall s :: !IsAdded(c, s))))
  }

  ghost predicate IsDateRange(c: Calendar, lo: Option<string>, hi: Option<string>) {
    IsRangeStart(c, lo) && IsRangeEnd(c, hi)
  }

  // ---------- order of date strings ----------

  lemma StrLessTotal(s: string, t: string)
    requires IsDateString(s) && IsDateString(t)
    ensures StrLess(s, t) || s == t || StrLess(t, s)
    ensures !(StrLess(s, t) && StrLess(t, s)) && !StrLess(s, s)
  {
    StringOrderIsDateOrder(s, t);
    StringOrderIsDateOrder(t, s);
    StringOrderIsDateOrder(s, s);
  }

  lemma StrLeTransitive(s: string, t: string, u: string)
    requires IsDateString(s) && IsDateString(t) && IsDateString(u) && StrLe(s, t) && StrLe(t, u)
    ensures StrLe(s, u)
    ensures StrLess(s, t) || StrLess(t, u) ==> StrLess(s, u)
  {
    StringOrderIsDateOrder(t, s);
    StringOrderIsDateOrder(u, t);
    StringOrderIsDateOrder(u, s);
    StringOrderIsDateOrder(s, t);
    StringOrderIsDateOrder(t, u);
    StringOrderIsDateOrder(s, u);
  }

  /** No service runs outside its date range. */
  lemma ActiveWithinRange(c: Calendar, lo: Option<string>, hi: Option<string>, s: string)
    requires DatesOk(c) && IsDateRange(c, lo, hi) && IsDateString(s) && ActiveOn(c, s)
    ensures lo.Some? && hi.Some? && StrLe(lo.value, s) && StrLe(s, hi.value)
  {
    if s in c.exceptions {
      assert IsAdded(c, s);
    } else {
      RangeIsDates(c, lo, hi);
      StrLeTransitive(lo.value, c.start.value, s);
      StrLeTransitive(s, c.end.value, hi.value);
    }
  }

  lemma RangeIsDates(c: Calendar, lo: Option<string>, hi: Option<string>)
    requires DatesOk(c) && IsDateRange(c, lo, hi)
    ensures lo.Some? ==> IsDateString(lo.value) && (CalendarOk(c) ==> IsServiceDate(lo.value))
    ensures hi.Some? ==> IsDateString(hi.value) && (CalendarOk(c) ==> IsServiceDate(hi.value))
    ensures lo.Some? <==> hi.Some?
  {
  }

  // ---------- active dates ----------

  ghost predicate Increasing(dates: seq<string>) {
    forall i, j :: 0 <= i < j < |dates| ==> StrLess(dates[i], dates[j])
  }

  /** dates lists exactly the dates on which the service runs, in order. */
  ghost predicate ListsActive(c: Calendar, dates: seq<string>)
    requires CalendarOk(c)
  {
    && Increasing(dates)
    && (forall s :: s in dates ==> IsServiceDate(s))
    && (forall s :: IsServiceDate(s) ==> (s in dates <==> ActiveOn(c, s)))
  }

  /** dates lists exactly the active dates from lo up to, not including, the date next. */
  ghost predicate ListsUpTo(c: Calendar, dates: seq<string>, lo: string, next: Date)
    requires CalendarOk(c)
  {
    && Increasing(dates)
    && (forall s :: s in dates ==> IsServiceDate(s))
    && (forall s :: IsServiceDate(s) ==>
          (s in dates <==> StrLe(lo, s) && DateLess(Parse(s).value, next) && ActiveOn(c, s)))
  }

  /** The state of the loop of active_dates: listed up to the date it, which has not fallen before lo. */
  ghost predicate Listing(c: Calendar, dates: seq<string>, lo: string, it: Date)
    requires CalendarOk(c) && IsDateString(lo)
  {
    IsDate(it) && FIRST_YEAR <= it.y && !DateLess(it, Parse(lo).value) && ListsUpTo(c, dates, lo, it)
  }

  lemma ListsNone(c: Calendar, lo: string)
    requires CalendarOk(c) && IsServiceDate(lo)
    ensures Listing(c, [], lo, Parse(lo).value)
  {
    forall s | IsServiceDate(s)
      ensures !(StrLe(lo, s) && DateLess(Parse(s).value, Parse(lo).value))
    {
      StringOrderIsDateOrder(s, lo);
    }
  }

  function WithDate(c: Calendar, dates: seq<string>, t: string): seq<string>
    requires |c.week| == 7 && IsDateString(t)
  {
    if ActiveOn(c, t) then dates + [t] else dates
  }

  lemma ListsNextAt(c: Calendar, dates: seq<string>, lo: string, it: Date, s: string)
    requires CalendarOk(c) && IsServiceDate(lo) && Listing(c, dates, lo, it) && it.y <= LAST_YEAR && IsServiceDate(s)
    ensures IsDateString(Format(it))
    ensures s in WithDate(c, dates, Format(it)) <==> StrLe(lo, s) && DateLess(Parse(s).value, NextDay(it)) && ActiveOn(c, s)
    ensures s in dates ==> StrLess(s, Format(it))
  {
    hide StrLess;
    ParseFormat(it);
    var t := Format(it);
    StringOrderIsDateOrder(t, lo);
    NextDayIsSuccessor(it, Parse(s).value);
    StringOrderIsDateOrder(s, t);
  }

  lemma IncreasingSnoc(dates: seq<string>, t: string)
    requires Increasing(dates) && forall s :: s in dates ==> StrLess(s, t)
    ensures Increasing(dates + [t])
  {
  }

  lemma ListsNext(c: Calendar, dates: seq<string>, lo: string, it: Date)
    requires CalendarOk(c) && IsServiceDate(lo) && Listing(c, dates, lo, it) && it.y <= LAST_YEAR
    ensures IsDateString(Format(it))
    ensures Listing(c, WithDate(c, dates, Format(it)), lo, NextDay(it))
  {
    ParseFormat(it);
    NextDayIsSuccessor(it, Parse(lo).value);
    var dates' := WithDate(c, dates, Format(it));
    forall s | IsServiceDate(s)
      ensures s in dates' <==> StrLe(lo, s) && DateLess(Parse(s).value, NextDay(it)) && ActiveOn(c, s)
      ensures s in dates ==> StrLess(s, Format(it))
    {
      ListsNextAt(c, dates, lo, it, s);
    }
    IncreasingSnoc(dates, Format(it));
    ListsUpToBy(c, dates', lo, NextDay(it));
  }

  lemma ListsUpToBy(c: Calendar, dates: seq<string>, lo: string, next: Date)
    requires CalendarOk(c) && Increasing(dates) && forall s :: s in dates ==> IsServiceDate(s)
    requires forall s :: IsServiceDate(s) ==>
               (s in dates <==> StrLe(lo, s) && DateLess(Parse(s).value, next) && ActiveOn(c, s))
    ensures ListsUpTo(c, dates, lo, next)
  {
  }

  lemma NextDayAdvances(x: Date)
    requires IsDate(x)
    ensures DateNumber(x) < DateNumber(NextDay(x))
  {
  }

  function DateNumber(x: Date): nat {
    10000 * x.y + 100 * x.m + x.d
  }

  lemma DateNumbersOrder(x: Date, y: Date)
    requires IsDate(x) && IsDate(y)
    ensures DateLess(x, y) <==> DateNumber(x) < DateNumber(y)
  {
  }

  lemma ListsAll(c: Calendar, dates: seq<string>, lo: string, hi: string, next: Date)
    requires CalendarOk(c) && IsDateRange(c, Some(lo), Some(hi)) && IsServiceDate(lo) && IsServiceDate(hi)
    requires Listing(c, dates, lo, next) && DateLess(Parse(hi).value, next)
    ensures ListsActive(c, dates)
  {
    forall s | IsServiceDate(s)
      ensures s in dates <==> ActiveOn(c, s)
    {
      if ActiveOn(c, s) {
        ActiveWithinRange(c, Some(lo), Some(hi), s);
        StringOrderIsDateOrder(hi, s);
      }
    }
  }

  lemma NeverActive(c: Calendar)
    requires CalendarOk(c) && IsDateRange(c, None, None)
    ensures ListsActive(c, [])
  {
    forall s | IsServiceDate(s)
      ensures !ActiveOn(c, s)
    {
      if ActiveOn(c, s) {
        ActiveWithinRange(c, None, None, s);
      }
    }
  }

  // ---------- the loop of get_date_range ----------

  predicate BoundHolds(s: string, bound: string, up: bool) {
    if up then StrLe(s, bound) else StrLe(bound, s)
  }

  /** bound is the given bound, improved by every date of seen that is added: the least, or the greatest if up. */
  ghost predicate RangeSoFar(given: Option<string>, exceptions: map<string, ExceptionType>, seen: set<string>,
                             bound: Option<string>, up: bool)
    requires seen <= exceptions.Keys
  {
    && (bound.None? ==> given.None? && forall s :: s in seen ==> exceptions[s] == Remove)
    && (bound.Some? ==>
          && (forall s :: s in seen && exceptions[s] == Add ==> BoundHolds(s, bound.value, up))
          && (given.Some? ==> BoundHolds(given.value, bound.value, up))
          && (bound == given || (bound.value in seen && exceptions[bound.value] == Add)))
  }

  function Improved(bound: Option<string>, date: string, up: bool): string {
    if bound.None? then date
    else if up then (if StrLess(bound.value, date) then date else bound.value)
    else (if StrLess(date, bound.value) then date else bound.value)
  }

  lemma RangeStep(given: Option<string>, exceptions: map<string, ExceptionType>, seen: set<string>,
                  bound: Option<string>, date: string, up: bool)
    requires seen <= exceptions.Keys && date in exceptions && exceptions[date] == Add
    requires forall s :: s in exceptions ==> IsDateString(s)
    requires given.Some? ==> IsDateString(given.value)
    requires RangeSoFar(given, exceptions, seen, bound, up)
    ensures RangeSoFar(given, exceptions, seen + {date}, Some(Improved(bound, date, up)), up)
  {
    StrLessTotal(date, date);
    if bound.Some? {
      StrLessTotal(bound.value, date);
      forall s | (s in seen && exceptions[s] == Add) || given == Some(s)
        ensures BoundHolds(s, Improved(bound, date, up), up)
      {
        if up && StrLess(bound.value, date) {
          StrLeTransitive(s, bound.value, date);
        }
        if !up && StrLess(date, bound.value) {
          StrLeTransitive(date, bound.value, s);
        }
      }
    }
  }

  /** A removed date counts for nothing. */
  lemma RangeSkip(given: Option<string>, exceptions: map<string, ExceptionType>, seen: set<string>,
                  bound: Option<string>, date: string, up: bool)
    requires seen <= exceptions.Keys && date in exceptions && exceptions[date] == Remove
    requires RangeSoFar(given, exceptions, seen, bound, up)
    ensures RangeSoFar(given, exceptions, seen + {date}, bound, up)
  {
  }

  lemma RangeBegins(given: Option<string>, exceptions: map<string, ExceptionType>, up: bool)
    requires given.Some? ==> IsDateString(given.value)
    ensures RangeSoFar(given, exceptions, {}, given, up)
  {
    if given.Some? {
      StrLessTotal(given.value, given.value);
    }
  }

  lemma RangeEnds(c: Calendar, start: Option<string>, end: Option<string>)
    requires DatesOk(c)
    requires RangeSoFar(c.start, c.exceptions, c.exceptions.Keys, start, false)
    requires RangeSoFar(c.end, c.exceptions, c.exceptions.Keys, end, true)
    ensures IsDateRange(c, if start.None? then end else start, if start.Some? && end.None? then start else end)
  {
    assert forall s :: IsAdded(c, s) <==> s in c.exceptions.Keys && c.exceptions[s] == Add;
    if c.start.Some? {
      StrLessTotal(c.start.value, c.start.value);
    }
    if c.end.Some? {
      StrLessTotal(c.end.value, c.end.value);
    }
  }

  // ---------- truncation ----------

  predicate Outside(k: string, start: Option<string>, end: string) {
    (start.Some? && StrLess(k, start.value)) || StrLess(end, k)
  }

  /** What truncation makes of a calendar. */
  ghost function Truncated(c: Calendar, start: Option<string>, end: string): Calendar
    requires c.start.Some? && c.end.Some?
  {
    Calendar(if start.Some? && StrLess(c.start.value, start.value) then start else c.start,
             if StrLess(end, c.end.value) then Some(end) else c.end,
             c.week,
             map k | k in c.exceptions && !Outside(k, start, end) :: c.exceptions[k])
  }

  /** The last bound of a truncation that has none: no date string comes after it. */
  const FOREVER := "99999999"

  lemma NothingAfterForever(s: string)
    requires IsDateString(s)
    ensures StrLe(s, FOREVER)
  {
    var t := FOREVER;
    assert TwoValue(t, 0) == 99 && TwoValue(t, 2) == 99 && TwoValue(t, 4) == 99 && TwoValue(t, 6) == 99;
    StrLessByPairs(t, s);
    StrLessByPairs(t[2..], s[2..]);
    StrLessByPairs(t[4..], s[4..]);
    StrLessByPairs(t[6..], s[6..]);
    assert t[2..][2..] == t[4..] && s[2..][2..] == s[4..];
    assert t[4..][2..] == t[6..] && s[4..][2..] == s[6..];
    assert t[6..][2..] == [] && s[6..][2..] == [];
  }

  /** A calendar cut at a day runs on exactly its original dates up to that day. */
  lemma TruncatedBefore(c: Calendar, last: string, s: string)
    requires DatesOk(c) && c.start.Some? && c.end.Some? && IsDateString(last) && IsDateString(s)
    ensures DatesOk(Truncated(c, None, last))
    ensures ActiveOn(Truncated(c, None, last), s) <==> ActiveOn(c, s) && StrLe(s, last)
  {
    hide StrLess;
    StrLessTotal(c.end.value, last);
    if StrLe(s, last) && StrLe(last, c.end.value) {
      StrLeTransitive(s, last, c.end.value);
    }
    if StrLe(s, c.end.value) && StrLe(c.end.value, last) {
      StrLeTransitive(s, c.end.value, last);
    }
  }

  /** A calendar cut to begin at a day runs on exactly its original dates from that day on. */
  lemma TruncatedFrom(c: Calendar, first: string, s: string)
    requires DatesOk(c) && c.start.Some? && c.end.Some? && IsDateString(first) && IsDateString(s)
    ensures DatesOk(Truncated(c, Some(first), FOREVER))
    ensures ActiveOn(Truncated(c, Some(first), FOREVER), s) <==> ActiveOn(c, s) && StrLe(first, s)
  {
    hide StrLess;
    NothingAfterForever(s);
    NothingAfterForever(c.end.value);
    StrLessTotal(c.start.value, first);
    if StrLe(first, s) && StrLe(c.start.value, first) {
      StrLeTransitive(c.start.value, first, s);
    }
    if StrLe(c.start.value, s) && StrLe(first, c.start.value) {
      StrLeTransitive(first, c.start.value, s);
    }
  }

  function DayBefore(s: string): string
    requires IsDateString(s) && Parse(s).value != Date(1, 1, 1)
  {
    PrevDayIsPredecessor(Parse(s).value, Parse(s).value);
    Format(PrevDay(Parse(s).value))
  }

  lemma BeforeMeansUpToDayBefore(s: string, cutoff: string)
    requires IsDateString(s) && IsDateString(cutoff) && Parse(cutoff).value != Date(1, 1, 1)
    ensures IsDateString(DayBefore(cutoff)) && StrLess(DayBefore(cutoff), cutoff)
    ensures StrLe(s, DayBefore(cutoff)) <==> StrLess(s, cutoff)
  {
    var x := Parse(cutoff).value;
    PrevDayIsPredecessor(x, Parse(s).value);
    PrevDayIsPredecessor(x, PrevDay(x));
    ParseFormat(PrevDay(x));
    StringOrderIsDateOrder(s, cutoff);
    StringOrderIsDateOrder(DayBefore(cutoff), s);
    StringOrderIsDateOrder(DayBefore(cutoff), cutoff);
  }

  // ---------- the coarse check of two feeds ----------

  /** The two ranges have a date in common: the later start is no later than the earlier end. */
  predicate Overlap(aLo: string, aHi: string, bLo: string, bHi: string) {
    StrLe(if StrLess(aLo, bLo) then bLo else aLo, if StrLess(bHi, aHi) then bHi else aHi)
  }

  lemma OverlapAt(aLo: string, aHi: string, bLo: string, bHi: string, s: string)
    requires IsDateString(aLo) && IsDateString(aHi) && IsDateString(bLo) && IsDateString(bHi) && IsDateString(s)
    requires StrLe(aLo, s) && StrLe(bLo, s) && StrLe(s, aHi) && StrLe(s, bHi)
    ensures Overlap(aLo, aHi, bLo, bHi)
  {
    StrLeTransitive(if StrLess(aLo, bLo) then bLo else aLo, s, if StrLess(bHi, aHi) then bHi else aHi);
  }

  lemma NoOverlapAcross(aLo: string, aHi: string, bLo: string, bHi: string)
    requires IsDateString(aLo) && IsDateString(aHi) && IsDateString(bLo) && IsDateString(bHi)
    requires StrLess(aHi, bLo)
    ensures !Overlap(aLo, aHi, bLo, bHi)
  {
    var lo := if StrLess(aLo, bLo) then bLo else aLo;
    var hi := if StrLess(bHi, aHi) then bHi else aHi;
    StrLessTotal(aLo, bLo);
    StrLessTotal(bHi, aHi);
    StrLessTotal(aHi, bLo);
    StrLessTotal(bLo, bLo);
    StrLeTransitive(hi, aHi, bLo);
    StrLeTransitive(hi, bLo, lo);
  }

  type Range = (string, string)

  ghost predicate RangeIs(c: Calendar, r: Range) {
    DatesOk(c) && IsDateRange(c, Some(r.0), Some(r.1))
  }

  predicate RangesMeet(r: Range, q: Range) {
    Overlap(r.0, r.1, q.0, q.1)
  }

  /** A calendar has at most one date range. */
  lemma RangeUnique(c: Calendar, r: Range, lo: Option<string>, hi: Option<string>)
    requires RangeIs(c, r) && IsDateRange(c, lo, hi)
    ensures lo == Some(r.0) && hi == Some(r.1)
  {
    RangeIsDates(c, Some(r.0), Some(r.1));
    RangeIsDates(c, lo, hi);
    if lo.Some? {
      StrLessTotal(lo.value, r.0);
      StrLessTotal(hi.value, r.1);
    }
  }

  /** Whatever is given, some bound is right. */
  lemma {:induction false} BoundExists(given: Option<string>, exceptions: map<string, ExceptionType>, keys: set<string>, up: bool)
    returns (bound: Option<string>)
    requires keys <= exceptions.Keys && forall s :: s in exceptions ==> IsDateString(s)
    requires given.Some? ==> IsDateString(given.value)
    ensures RangeSoFar(given, exceptions, keys, bound, up)
    ensures given.Some? ==> bound.Some?
    decreases keys
  {
    if keys == {} {
      bound := given;
      RangeBegins(given, exceptions, up);
    } else {
      var k :| k in keys;
      bound := BoundExists(given, exceptions, keys - {k}, up);
      assert keys - {k} + {k} == keys;
      if exceptions[k] == Add {
        RangeStep(given, exceptions, keys - {k}, bound, k, up);
        bound := Some(Improved(bound, k, up));
      }
    }
  }

  lemma RangeExists(c: Calendar) returns (r: Range)
    requires DatesOk(c) && c.start.Some? && c.end.Some?
    ensures RangeIs(c, r)
  {
    var lo := BoundExists(c.start, c.exceptions, c.exceptions.Keys, false);
    var hi := BoundExists(c.end, c.exceptions, c.exceptions.Keys, true);
    RangeEnds(c, lo, hi);
    r := (lo.value, hi.value);
  }

  ghost predicate ShareNoDate(a: Calendar, b: Calendar) {
    && DatesOk(a) && DatesOk(b)
    && forall s :: IsDateString(s) ==> !(ActiveOn(a, s) && ActiveOn(b, s))
  }

  /** Two ranges meet exactly if some date lies in both. */
  lemma MeetIffCommonDate(r: Range, q: Range)
    requires IsDateString(r.0) && IsDateString(r.1) && IsDateString(q.0) && IsDateString(q.1)
    ensures RangesMeet(r, q) <==>
            exists s :: IsDateString(s) && StrLe(r.0, s) && StrLe(s, r.1) && StrLe(q.0, s) && StrLe(s, q.1)
  {
    hide StrLess;
    if s :| IsDateString(s) && StrLe(r.0, s) && StrLe(s, r.1) && StrLe(q.0, s) && StrLe(s, q.1) {
      OverlapAt(r.0, r.1, q.0, q.1, s);
    }
    var lo := if StrLess(r.0, q.0) then q.0 else r.0;
    var hi := if StrLess(q.1, r.1) then q.1 else r.1;
    StrLessTotal(r.0, q.0);
    StrLessTotal(q.1, r.1);
    StrLessTotal(lo, lo);
    StrLessTotal(hi, hi);
    if StrLe(lo, hi) {
      StrLeTransitive(lo, hi, r.1);
      StrLeTransitive(lo, hi, q.1);
    }
  }

  /** The check is sound: calendars whose ranges do not meet share no active date. */
  lemma ApartShareNoDate(a: Calendar, r: Range, b: Calendar, q: Range)
    requires RangeIs(a, r) && RangeIs(b, q) && !RangesMeet(r, q)
    ensures ShareNoDate(a, b)
  {
    RangeIsDates(a, Some(r.0), Some(r.1));
    RangeIsDates(b, Some(q.0), Some(q.1));
    forall s | IsDateString(s) && ActiveOn(a, s) && ActiveOn(b, s)
      ensures false
    {
      ActiveWithinRange(a, Some(r.0), Some(r.1), s);
      ActiveWithinRange(b, Some(q.0), Some(q.1), s);
      OverlapAt(r.0, r.1, q.0, q.1, s);
    }
  }

  /** After truncation about a cutoff date the check finds nothing. */
  lemma TruncatedApart(a: Calendar, b: Calendar, last: string, first: string, r: Range, q: Range)
    requires DatesOk(a) && a.start.Some? && a.end.Some? && DatesOk(b) && b.start.Some? && b.end.Some?
    requires IsDateString(last) && IsDateString(first) && StrLess(last, first)
    requires RangeIs(Truncated(a, None, last), r) && RangeIs(Truncated(b, Some(first), FOREVER), q)
    ensures !RangesMeet(r, q)
  {
    RangeIsDates(Truncated(a, None, last), Some(r.0), Some(r.1));
    RangeIsDates(Truncated(b, Some(first), FOREVER), Some(q.0), Some(q.1));
    EndsByBound(a, last, r.1);
    BeginsAtBound(b, first, q.0);
    StrLessTotal(last, first);
    StrLeTransitive(r.1, last, first);
    StrLessTotal(r.1, first);
    StrLeTransitive(r.1, first, q.0);
    NoOverlapAcross(r.0, r.1, q.0, q.1);
  }

  lemma EndsByBound(a: Calendar, last: string, hi: string)
    requires DatesOk(a) && a.start.Some? && a.end.Some? && IsDateString(last)
    requires IsRangeEnd(Truncated(a, None, last), Some(hi))
    ensures StrLe(hi, last)
  {
    StrLessTotal(a.end.value, last);
    StrLessTotal(last, last);
  }

  lemma BeginsAtBound(b: Calendar, first: string, lo: string)
    requires DatesOk(b) && b.start.Some? && b.end.Some? && IsDateString(first)
    requires IsRangeStart(Truncated(b, Some(first), FOREVER), Some(lo))
    ensures StrLe(first, lo)
  {
    StrLessTotal(b.start.value, first);
    StrLessTotal(first, first);
  }
}
