/** The service period, as the object whose dates are queried, listed and truncated in place. */
module ServicePeriods {
  import opened Wrappers
  import opened Sequences
  import opened Dates
  import opened Calendars

  class ServicePeriod {
    var startDate: Option<string>
    var endDate: Option<string>
    var dayOfWeek: seq<bool>
    var dateExceptions: map<string, ExceptionType>

    constructor ()
      ensures Value() == Calendar(None, None, [false, false, false, false, false, false, false], map[])
    {
      startDate, endDate := None, None;
      dayOfWeek := [false, false, false, false, false, false, false];
      dateExceptions := map[];
    }

    /** The calendar this period stands for. */
    ghost function Value(): Calendar
      reads this
    {
      Calendar(startDate, endDate, dayOfWeek, dateExceptions)
    }

    method SetDateHasService(date: string, hasService: bool)
      modifies this`dateExceptions
      ensures Value() == old(Value()).(exceptions := old(dateExceptions)[date := if hasService then Add else Remove])
      ensures old(|dayOfWeek|) == 7 && IsDateString(date) ==>
                (ActiveOn(Value(), date) <==> hasService) &&
                forall s :: IsDateString(s) && s != date ==> (ActiveOn(Value(), s) <==> ActiveOn(old(Value()), s))
    {
      dateExceptions := dateExceptions[date := if hasService then Add else Remove];
    }

    method IsActiveOn(date: string) returns (active: bool)
      requires |dayOfWeek| == 7 && IsDateString(date)
      ensures active == ActiveOn(Value(), date)
    {
      if date in dateExceptions {
        return dateExceptions[date] == Add;
      }
      if startDate.Some? && endDate.Some? && StrLe(startDate.value, date) && StrLe(date, endDate.value) {
        return dayOfWeek[Weekday(Parse(date).value)];
      }
      return false;
    }

    method GetDateRange() returns (start: Option<string>, end: Option<string>)
      requires DatesOk(Value())
      ensures IsDateRange(Value(), start, end)
    {
      start, end := startDate, endDate;
      hide RangeSoFar, IsDateRange;
      ghost var c := Value();
      RangeBegins(c.start, c.exceptions, false);
      RangeBegins(c.end, c.exceptions, true);
      var todo := dateExceptions.Keys;
      ghost var seen: set<string> := {};
      while todo != {}
        invariant todo !! seen && todo + seen == c.exceptions.Keys
        invariant RangeSoFar(c.start, c.exceptions, seen, start, false)
        invariant RangeSoFar(c.end, c.exceptions, seen, end, true)
      {
        var date :| date in todo;
        OneMoreSeen(c.exceptions.Keys, todo, seen, date);
        todo := todo - {date};
        if dateExceptions[date] == Remove {
          RangeSkip(c.start, c.exceptions, seen, start, date, false);
          RangeSkip(c.end, c.exceptions, seen, end, date, true);
          seen := seen + {date};
          continue;
        }
        RangeStep(c.start, c.exceptions, seen, start, date, false);
        RangeStep(c.end, c.exceptions, seen, end, date, true);
        ghost var start', end' := Some(Improved(start, date, false)), Some(Improved(end, date, true));
        if start.None? || StrLess(date, start.value) {
          start := Some(date);
        }
        if end.None? || StrLess(end.value, date) {
          end := Some(date);
        }
        assert start == start' && end == end';
        seen := seen + {date};
      }
      assert seen == c.exceptions.Keys;
      RangeEnds(c, start, end);
      if start.None? {
        start := end;
      } else if end.None? {
        end := start;
      }
    }

    /** Exactly the active dates, each once, in order. */
    method ActiveDates() returns (dates: seq<string>)
      requires CalendarOk(Value())
      ensures ListsActive(Value(), dates)
    {
      var earliest, latest := GetDateRange();
      RangeIsDates(Value(), earliest, latest);
      if earliest.None? {
        NeverActive(Value());
        return [];
      }
      dates := DatesBetween(earliest.value, latest.value);
    }

    method DatesBetween(earliest: string, latest: string) returns (dates: seq<string>)
      requires CalendarOk(Value()) && IsDateRange(Value(), Some(earliest), Some(latest))
      requires IsServiceDate(earliest) && IsServiceDate(latest)
      ensures ListsActive(Value(), dates)
    {
      ghost var c := Value();
      var it, end := Parse(earliest).value, Parse(latest).value;
      dates := [];
      ListsNone(c, earliest);
      while !DateLess(end, it)
        invariant Listing(c, dates, earliest, it)
        decreases DateNumber(end) - DateNumber(it)
      {
        ListsNext(c, dates, earliest, it);
        NextDayAdvances(it);
        DateNumbersOrder(end, it);
        var s := Format(it);
        var active := IsActiveOn(s);
        if active {
          dates := dates + [s];
        }
        it := NextDay(it);
      }
      ListsAll(c, dates, earliest, latest, it);
    }

    /** Cuts the period down to the dates from start to end; no start means the earliest date. */
    method Truncate(start: Option<string>, end: string)
      requires startDate.Some? && endDate.Some?
      modifies this
      ensures Value() == Truncated(old(Value()), start, end)
    {
      hide StrLess;
      if start.Some? && StrLess(startDate.value, start.value) {
        startDate := start;
      }
      if StrLess(end, endDate.value) {
        endDate := Some(end);
      }
      ghost var s0, e0, w0 := startDate, endDate, dayOfWeek;
      var datesToDelete: seq<string> := [];
      var todo := dateExceptions.Keys;
      while todo != {}
        invariant startDate == s0 && endDate == e0 && dayOfWeek == w0
        invariant todo <= dateExceptions.Keys && dateExceptions == old(dateExceptions)
        invariant forall k :: k in datesToDelete <==> k in dateExceptions && k !in todo && Outside(k, start, end)
      {
        var k :| k in todo;
        todo := todo - {k};
        if (start.Some? && StrLess(k, start.value)) || StrLess(end, k) {
          datesToDelete := datesToDelete + [k];
        }
      }
      for i := 0 to |datesToDelete|
        invariant startDate == s0 && endDate == e0 && dayOfWeek == w0
        invariant dateExceptions == map k | k in old(dateExceptions) && k !in datesToDelete[..i] :: old(dateExceptions)[k]
      {
        dateExceptions := map k | k in dateExceptions && k != datesToDelete[i] :: dateExceptions[k];
      }
      assert dateExceptions == Truncated(old(Value()), start, end).exceptions;
    }
  }
}
