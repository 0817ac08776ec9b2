/**
 Gregorian dates, their YYYYMMDD strings, and why comparing the strings compares the dates.
 */
module Dates {
  import opened Wrappers
  import opened Digits

  datatype Date = Date(y: nat, m: nat, d: nat)

  predicate Leap(y: nat) {
    y % 4 == 0 && (y % 100 != 0 || y % 400 == 0)
  }

  function DaysInMonth(y: nat, m: nat): nat {
    if m == 2 then (if Leap(y) then 29 else 28)
    else if m == 4 || m == 6 || m == 9 || m == 11 then 30
    else 31
  }

  /** The dates that datetime.date can represent. */
  predicate IsDate(x: Date) {
    1 <= x.y <= 9999 && 1 <= x.m <= 12 && 1 <= x.d <= DaysInMonth(x.y, x.m)
  }

  predicate DateLess(a: Date, b: Date) {
    a.y < b.y || (a.y == b.y && (a.m < b.m || (a.m == b.m && a.d < b.d)))
  }

  /** Adding one day; past the last year there is no date to go to. */
  function NextDay(x: Date): Date {
    if x.d < DaysInMonth(x.y, x.m) then Date(x.y, x.m, x.d + 1)
    else if x.m < 12 then Date(x.y, x.m + 1, 1)
    else Date(x.y + 1, 1, 1)
  }

  function PrevDay(x: Date): Date
    requires IsDate(x) && x != Date(1, 1, 1)
  {
    if x.d > 1 then Date(x.y, x.m, x.d - 1)
    else if x.m > 1 then Date(x.y, x.m - 1, DaysInMonth(x.y, x.m - 1))
    else Date(x.y - 1, 12, 31)
  }

  /** Stepping by a day leaves out no date. */
  lemma NextDayIsSuccessor(x: Date, e: Date)
    requires IsDate(x) && IsDate(e)
    ensures DateLess(e, NextDay(x)) <==> DateLess(e, x) || e == x
    ensures x != Date(9999, 12, 31) ==> IsDate(NextDay(x)) && PrevDay(NextDay(x)) == x
  {
  }

  lemma PrevDayIsPredecessor(x: Date, e: Date)
    requires IsDate(x) && IsDate(e) && x != Date(1, 1, 1)
    ensures IsDate(PrevDay(x)) && NextDay(PrevDay(x)) == x
    ensures DateLess(e, x) <==> DateLess(e, PrevDay(x)) || e == PrevDay(x)
  {
    NextDayIsSuccessor(PrevDay(x), e);
  }

  // ---------- days of the week ----------

  function DaysBeforeMonth(y: nat, m: nat): nat {
    if m <= 1 then 0 else DaysBeforeMonth(y, m - 1) + DaysInMonth(y, m - 1)
  }

  function DaysBeforeYear(y: nat): int {
    var n := y as int - 1;
    365 * n + n / 4 - n / 100 + n / 400
  }

  /** The proleptic Gregorian ordinal: January 1 of year 1 is day 1. */
  function Ordinal(x: Date): int {
    DaysBeforeYear(x.y) + DaysBeforeMonth(x.y, x.m) + x.d
  }

  /** Monday is 0. */
  function Weekday(x: Date): nat {
    (Ordinal(x) + 6) % 7
  }

  lemma {:induction false} DaysOfYear(y: nat)
    ensures DaysBeforeMonth(y, 12) + 31 == if Leap(y) then 366 else 365
  {
    assert DaysBeforeMonth(y, 2) == 31;
    assert DaysBeforeMonth(y, 4) == DaysBeforeMonth(y, 2) + DaysInMonth(y, 2) + 31;
    assert DaysBeforeMonth(y, 6) == DaysBeforeMonth(y, 4) + 61;
    assert DaysBeforeMonth(y, 8) == DaysBeforeMonth(y, 6) + 61;
    assert DaysBeforeMonth(y, 10) == DaysBeforeMonth(y, 8) + 61;
    assert DaysBeforeMonth(y, 12) == DaysBeforeMonth(y, 10) + 61;
  }

  /** If n is q times k with remainder r, that is what division gives. */
  lemma DivideAs(n: int, k: int, q: int, r: int)
    requires 0 <= r < k && n == k * q + r
    ensures n / k == q && n % k == r
  {
    var d := n / k - q;
    MulBeyond(k, d);
    assert k * d == r - n % k;
  }

  lemma MulBeyond(k: int, d: int)
    requires k > 0
    ensures d > 0 ==> k * d >= k
    ensures d < 0 ==> k * d <= -k
  {
    if d > 0 {
      assert k * (d - 1) >= 0;
    } else if d < 0 {
      assert k * (-d - 1) >= 0;
    }
  }

  lemma DivStep(n: int, k: int)
    requires k > 0
    ensures (n + 1) / k == n / k + if (n + 1) % k == 0 then 1 else 0
  {
    var q, r := n / k, n % k;
    if r + 1 == k {
      assert k * (q + 1) == k * q + k;
      DivideAs(n + 1, k, q + 1, 0);
    } else {
      DivideAs(n + 1, k, q, r + 1);
    }
  }

  lemma DaysOfYearStep(y: nat)
    requires y >= 1
    ensures DaysBeforeYear(y + 1) == DaysBeforeYear(y) + if Leap(y) then 366 else 365
  {
    var n := y as int - 1;
    DivStep(n, 4);
    DivStep(n, 100);
    DivStep(n, 400);
    MultiplesNest(y);
  }

  lemma MultiplesNest(y: nat)
    ensures y % 400 == 0 ==> y % 100 == 0
    ensures y % 100 == 0 ==> y % 4 == 0
  {
    if y % 400 == 0 {
      DivideAs(y, 100, 4 * (y / 400), 0);
    }
    if y % 100 == 0 {
      DivideAs(y, 4, 25 * (y / 100), 0);
    }
  }

  /** The weekday advances by one from each day to the next. */
  lemma WeekdayAdvances(x: Date)
    requires IsDate(x)
    ensures Ordinal(NextDay(x)) == Ordinal(x) + 1
    ensures Weekday(NextDay(x)) == (Weekday(x) + 1) % 7
  {
    OrdinalAdvances(x);
    NextModSeven(Ordinal(x) + 6);
  }

  /** The date k days after x. */
  function After(x: Date, k: nat): (r: Date)
    requires IsDate(x)
    ensures x.y <= r.y && 1 <= r.m <= 12 && 1 <= r.d <= DaysInMonth(r.y, r.m)
  {
    if k == 0 then x else NextDay(After(x, k - 1))
  }

  /** The weekday of the date k days later is k weekdays further on. */
  lemma {:induction false} WeekdayAfter(x: Date, k: nat)
    requires IsDate(x) && After(x, k).y <= 9999
    ensures Weekday(After(x, k)) == (Weekday(x) + k) % 7
  {
    hide Weekday, Ordinal;
    if k == 0 {
      WeekdayBelowSeven(x);
    } else {
      var before := After(x, k - 1);
      assert before.y <= After(x, k).y;
      WeekdayAfter(x, k - 1);
      WeekdayAdvances(before);
      NextModSeven(Weekday(x) + k - 1);
    }
  }

  lemma WeekdayBelowSeven(x: Date)
    ensures Weekday(x) < 7 && Weekday(x) % 7 == Weekday(x)
  {
  }

  /** Every date comes some days after the first one. */
  lemma {:induction false} AfterFirst(x: Date) returns (k: nat)
    requires IsDate(x)
    ensures After(Date(1, 1, 1), k) == x
    decreases x.y, x.m, x.d
  {
    if x == Date(1, 1, 1) {
      k := 0;
    } else {
      PrevDayIsPredecessor(x, x);
      k := AfterFirst(PrevDay(x));
      k := k + 1;
    }
  }

  /**
   The first day of the calendar is a Monday, and the weekday of every date is the number of days since then, modulo
   seven.  Among the Mondays is the first day of 2024; the first of 2000 is a Saturday.
   */
  lemma WeekdayIs(x: Date) returns (k: nat)
    requires IsDate(x)
    ensures After(Date(1, 1, 1), k) == x && Weekday(x) == k % 7
    ensures Weekday(Date(2024, 1, 1)) == 0 && Weekday(Date(2000, 1, 1)) == 5
  {
    k := AfterFirst(x);
    WeekdayAfter(Date(1, 1, 1), k);
    FirstOfMarkedYears();
  }

  lemma FirstOfMarkedYears()
    ensures Weekday(Date(1, 1, 1)) == 0 && Weekday(Date(2024, 1, 1)) == 0 && Weekday(Date(2000, 1, 1)) == 5
  {
    assert DaysBeforeYear(2024) == 738885 && DaysBeforeYear(2000) == 730119;
  }

  /** The months by their lengths. */
  lemma MonthLengths(y: nat)
    ensures forall m :: m in {1, 3, 5, 7, 8, 10, 12} ==> DaysInMonth(y, m) == 31
    ensures forall m :: m in {4, 6, 9, 11} ==> DaysInMonth(y, m) == 30
    ensures DaysInMonth(y, 2) == if y % 400 == 0 || (y % 4 == 0 && y % 100 != 0) then 29 else 28
  {
  }

  lemma NextModSeven(n: int)
    ensures (n + 1) % 7 == (n % 7 + 1) % 7
  {
  }

  lemma OrdinalAdvances(x: Date)
    requires IsDate(x)
    ensures Ordinal(NextDay(x)) == Ordinal(x) + 1
  {
    if x.d == DaysInMonth(x.y, x.m) {
      if x.m == 12 {
        DaysOfYear(x.y);
        DaysOfYearStep(x.y);
        assert NextDay(x) == Date(x.y + 1, 1, 1) && DaysBeforeMonth(x.y + 1, 1) == 0;
      } else {
        assert DaysBeforeMonth(x.y, x.m + 1) == DaysBeforeMonth(x.y, x.m) + DaysInMonth(x.y, x.m);
      }
    }
  }

  // ---------- strings ----------

  predicate StrLess(s: string, t: string) {
    t != [] && (s == [] || s[0] < t[0] || (s[0] == t[0] && StrLess(s[1..], t[1..])))
  }

  predicate StrLe(s: string, t: string) {
    !StrLess(t, s)
  }

  function DigitOf(n: nat): char
    requires n < 10
  {
    '0' + n as char
  }

  function DigitValue(c: char): nat
    requires IsDigit(c)
  {
    (c - '0') as nat
  }

  function Two(n: nat): string
    requires n < 100
  {
    [DigitOf(n / 10), DigitOf(n % 10)]
  }

  /** strftime("%Y%m%d"). */
  function Format(x: Date): string
    requires IsDate(x)
  {
    Two(x.y / 100) + Two(x.y % 100) + Two(x.m) + Two(x.d)
  }

  function TwoValue(s: string, i: nat): nat
    requires i + 2 <= |s| && AllDigits(s)
  {
    10 * DigitValue(s[i]) + DigitValue(s[i + 1])
  }

  /** date_string_to_date_object: None unless the string is eight digits that make a date. */
  function Parse(s: string): Option<Date> {
    if |s| == 8 && AllDigits(s) then
      var x := Date(100 * TwoValue(s, 0) + TwoValue(s, 2), TwoValue(s, 4), TwoValue(s, 6));
      if IsDate(x) then Some(x) else None
    else None
  }

  predicate IsDateString(s: string) {
    Parse(s).Some?
  }

  lemma TwoRoundTrip(n: nat)
    requires n < 100
    ensures AllDigits(Two(n)) && TwoValue(Two(n), 0) == n
  {
  }

  lemma ParseFormat(x: Date)
    requires IsDate(x)
    ensures Parse(Format(x)) == Some(x)
  {
    TwoRoundTrip(x.y / 100);
    TwoRoundTrip(x.y % 100);
    TwoRoundTrip(x.m);
    TwoRoundTrip(x.d);
    var s := Format(x);
    assert AllDigits(s);
    assert TwoValue(s, 0) == x.y / 100 && TwoValue(s, 2) == x.y % 100;
    assert TwoValue(s, 4) == x.m && TwoValue(s, 6) == x.d;
  }

  lemma TwoOfValue(s: string, i: nat)
    requires i + 2 <= |s| && AllDigits(s)
    ensures Two(TwoValue(s, i)) == s[i..i + 2]
  {
    DigitRoundTrip(s[i]);
    DigitRoundTrip(s[i + 1]);
  }

  lemma DigitRoundTrip(c: char)
    requires IsDigit(c)
    ensures DigitValue(c) < 10 && DigitOf(DigitValue(c)) == c
  {
  }

  lemma FormatParse(s: string)
    requires IsDateString(s)
    ensures Format(Parse(s).value) == s
  {
    var x := Parse(s).value;
    assert x.y / 100 == TwoValue(s, 0) && x.y % 100 == TwoValue(s, 2);
    TwoOfValue(s, 0);
    TwoOfValue(s, 2);
    TwoOfValue(s, 4);
    TwoOfValue(s, 6);
    assert s == s[0..2] + s[2..4] + s[4..6] + s[6..8];
  }

  /** Comparing pairs of digits compares their values. */
  lemma StrLessByPairs(s: string, t: string)
    requires |s| == |t| >= 2 && AllDigits(s) && AllDigits(t)
    ensures StrLess(s, t) <==>
            TwoValue(s, 0) < TwoValue(t, 0) || (TwoValue(s, 0) == TwoValue(t, 0) && StrLess(s[2..], t[2..]))
  {
    assert s[1..][1..] == s[2..] && t[1..][1..] == t[2..];
  }

  /** YYYYMMDD strings are ordered as the dates they stand for. */
  lemma StringOrderIsDateOrder(s: string, t: string)
    requires IsDateString(s) && IsDateString(t)
    ensures StrLess(s, t) <==> DateLess(Parse(s).value, Parse(t).value)
    ensures s == t <==> Parse(s) == Parse(t)
  {
    StrLessByPairs(s, t);
    StrLessByPairs(s[2..], t[2..]);
    StrLessByPairs(s[4..], t[4..]);
    StrLessByPairs(s[6..], t[6..]);
    assert s[2..][2..] == s[4..] && t[2..][2..] == t[4..];
    assert s[4..][2..] == s[6..] && t[4..][2..] == t[6..];
    assert s[6..][2..] == [] && t[6..][2..] == [];
    FormatParse(s);
    FormatParse(t);
  }

  /** The year, the month and the day are the numbers that the first four digits, the next two and the last two stand for. */
  lemma ParseReads(s: string)
    requires IsDateString(s)
    ensures AllDigits(s) && |s| == 8
    ensures Parse(s).value == Date(ToNat(s[..4]), ToNat(s[4..6]), ToNat(s[6..]))
  {
    PairReads(s[..2]);
    PairReads(s[4..6]);
    PairReads(s[6..]);
    assert s[..4][..3][..2] == s[..2] && s[..4][..3] == s[..3];
    assert ToNat(s[..3]) == 10 * ToNat(s[..2]) + DigitValue(s[2]);
    assert ToNat(s[..4]) == 10 * ToNat(s[..3]) + DigitValue(s[3]);
  }

  lemma PairReads(s: string)
    requires |s| == 2 && AllDigits(s)
    ensures ToNat(s) == TwoValue(s, 0)
  {
    assert s[..1][..0] == [];
    assert ToNat(s[..1]) == DigitValue(s[0]);
  }
}
