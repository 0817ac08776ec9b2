/** Guessing the times of untimed stops from the distances between the stops around them. */
module Interpolations {
  import opened Wrappers

  datatype StopTime<S> = StopTime(secs: Option<int>, stop: S)

  /** A time for each stop, and whether it is a given one. */
  datatype Entry<S> = Entry(secs: int, stopTime: StopTime<S>, isTimepoint: bool)

  datatype Outcome<S> =
    | Times(entries: seq<Entry<S>>)
    | MissingTime
    | ZeroDistance

  ghost predicate NonNegative<S(!new)>(distance: (S, S) -> real) {
    forall s, t :: distance(s, t) >= 0.0
  }

  // ---------- rounding ----------

  /** To the nearest integer; to the even one of two. */
  function Round(x: real): int {
    var below := x.Floor;
    var rest := x - below as real;
    if rest < 0.5 || (rest == 0.5 && below % 2 == 0) then below else below + 1
  }

  lemma RoundMonotone(x: real, y: real)
    requires x <= y
    ensures Round(x) <= Round(y)
  {
    if x.Floor == y.Floor {
      assert x - x.Floor as real <= y - y.Floor as real;
    } else {
      assert x.Floor + 1 <= y.Floor;
    }
  }

  lemma RoundInteger(n: int)
    ensures Round(n as real) == n
  {
  }

  /** No integer is nearer to x than n, and if another one is as near, n is even. */
  ghost predicate Nearest(n: int, x: real) {
    var off := n as real - x;
    -0.5 <= off <= 0.5 && (off == 0.5 || off == -0.5 ==> n % 2 == 0)
  }

  lemma RoundIffNearest(x: real, n: int)
    ensures n == Round(x) <==> Nearest(n, x)
  {
    var below := x.Floor;
    assert below as real <= x < below as real + 1.0;
    if Nearest(n, x) {
      assert n == below || n == below + 1;
    }
  }

  // ---------- timepoints ----------

  predicate EndsTimed<S>(st: seq<StopTime<S>>) {
    st != [] && st[0].secs.Some? && st[|st| - 1].secs.Some?
  }

  /** The last timed stop up to i. */
  function Previous<S>(st: seq<StopTime<S>>, i: nat): (p: nat)
    requires EndsTimed(st) && i < |st|
    ensures p <= i && st[p].secs.Some? && forall k :: p < k <= i ==> st[k].secs.None?
  {
    if st[i].secs.Some? then i else Previous(st, i - 1)
  }

  /** The first timed stop from i on. */
  function Next<S>(st: seq<StopTime<S>>, i: nat): (q: nat)
    requires EndsTimed(st) && i < |st|
    ensures i <= q < |st| && st[q].secs.Some? && forall k :: i <= k < q ==> st[k].secs.None?
    decreases |st| - i
  {
    if st[i].secs.Some? then i else Next(st, i + 1)
  }

  /** The distance along the stops from the one at j to the one at k. */
  function Between<S>(st: seq<StopTime<S>>, distance: (S, S) -> real, j: nat, k: nat): real
    requires j <= k < |st|
  {
    if j == k then 0.0 else Between(st, distance, j, k - 1) + distance(st[k - 1].stop, st[k].stop)
  }

  lemma {:induction false} BetweenGrows<S(!new)>(st: seq<StopTime<S>>, distance: (S, S) -> real, j: nat, k: nat, l: nat)
    requires j <= k <= l < |st| && NonNegative(distance)
    ensures 0.0 <= Between(st, distance, j, k) <= Between(st, distance, j, l)
    decreases l
  {
    if l > k {
      BetweenGrows(st, distance, j, k, l - 1);
    } else if k > j {
      BetweenGrows(st, distance, j, k - 1, k - 1);
    }
  }

  /** There is an untimed stop between two timepoints with no distance between them. */
  ghost predicate NoDistanceAt<S>(st: seq<StopTime<S>>, distance: (S, S) -> real, i: nat)
    requires EndsTimed(st)
  {
    i < |st| && st[i].secs.None? && Between(st, distance, Previous(st, i), Next(st, i)) == 0.0
  }

  /** The share that x is of the whole, of the time from a to b. */
  function Linear(x: real, whole: real, a: int, b: int): real
    requires whole != 0.0
  {
    x / whole * (b - a) as real + a as real
  }

  /** The unrounded time at a stop: linear in the distance between the surrounding timepoints. */
  function Estimate<S>(st: seq<StopTime<S>>, distance: (S, S) -> real, i: nat): real
    requires EndsTimed(st) && i < |st| && !NoDistanceAt(st, distance, i)
  {
    if st[i].secs.Some? then st[i].secs.value as real
    else
      var p, q := Previous(st, i), Next(st, i);
      Linear(Between(st, distance, p, i), Between(st, distance, p, q), st[p].secs.value, st[q].secs.value)
  }

  function EntryAt<S>(st: seq<StopTime<S>>, distance: (S, S) -> real, i: nat): Entry<S>
    requires EndsTimed(st) && i < |st| && !NoDistanceAt(st, distance, i)
  {
    Entry(Round(Estimate(st, distance, i)), st[i], st[i].secs.Some?)
  }

  /**
   secs is the guess for the untimed stop at i: with p and q the timepoints around it, the second nearest to the time x
   that has gone from p's by the same share of the time to q's as the stop's distance from p has of the distance to q.
   */
  ghost predicate IsGuess<S>(st: seq<StopTime<S>>, distance: (S, S) -> real, i: int, secs: int, p: int, q: int, x: real)
    requires 0 <= p < i < q < |st| && st[p].secs.Some? && st[q].secs.Some?
  {
    && (forall k :: p < k < q ==> st[k].secs.None?)
    && (x - st[p].secs.value as real) * Between(st, distance, p, q) ==
       Between(st, distance, p, i) * (st[q].secs.value - st[p].secs.value) as real
    && Between(st, distance, p, q) != 0.0 && Nearest(secs, x)
  }

  /** A timed stop at its time, marked as a timepoint; an untimed one at a guess. */
  ghost predicate EntryRight<S>(st: seq<StopTime<S>>, distance: (S, S) -> real, i: int, entry: Entry<S>)
    requires 0 <= i < |st|
  {
    && entry.stopTime == st[i] && entry.isTimepoint == st[i].secs.Some?
    && (st[i].secs.Some? ==> entry.secs == st[i].secs.value)
    && (st[i].secs.None? ==> exists p, q, x ::
          0 <= p < i < q < |st| && st[p].secs.Some? && st[q].secs.Some? && IsGuess(st, distance, i, entry.secs, p, q, x))
  }

  lemma EntryAtIsRight<S>(st: seq<StopTime<S>>, distance: (S, S) -> real, i: nat)
    requires EndsTimed(st) && i < |st| && !NoDistanceAt(st, distance, i)
    ensures EntryRight(st, distance, i, EntryAt(st, distance, i))
  {
    hide Round, Nearest, Linear;
    if st[i].secs.Some? {
      RoundInteger(st[i].secs.value);
    } else {
      var p, q := Previous(st, i), Next(st, i);
      var x := Estimate(st, distance, i);
      LinearIsShare(Between(st, distance, p, i), Between(st, distance, p, q), st[p].secs.value, st[q].secs.value);
      RoundIffNearest(x, Round(x));
      assert IsGuess(st, distance, i, EntryAt(st, distance, i).secs, p, q, x);
    }
  }

  lemma LinearIsShare(x: real, whole: real, a: int, b: int)
    requires whole != 0.0
    ensures (Linear(x, whole, a, b) - a as real) * whole == x * (b - a) as real
  {
    var share, t := x / whole, (b - a) as real;
    assert share * whole == x;
    assert share * t * whole == share * whole * t;
  }

  // ---------- the loop ----------

  /** Between two timepoints, those around a stop are the same for all. */
  lemma {:induction false} SameNeighbours<S>(st: seq<StopTime<S>>, p: nat, i: nat)
    requires EndsTimed(st) && p < i < |st| && st[p].secs.Some? && forall k :: p < k <= i ==> st[k].secs.None?
    ensures Previous(st, i) == p && Next(st, i) == Next(st, p + 1)
  {
    assert Next(st, p + 1) > i;
  }

  lemma TimedEntry<S>(st: seq<StopTime<S>>, distance: (S, S) -> real, i: nat)
    requires EndsTimed(st) && i < |st| && st[i].secs.Some?
    ensures !NoDistanceAt(st, distance, i) && EntryAt(st, distance, i) == Entry(st[i].secs.value, st[i], true)
  {
    RoundInteger(st[i].secs.value);
  }

  lemma LinearIs(x: real, whole: real, a: int, b: int, total: int)
    requires whole != 0.0 && total == b - a
    ensures Linear(x, whole, a, b) == x / whole * total as real + a as real
  {
    var share := x / whole;
    assert (b - a) as real == total as real;
    assert share * (b - a) as real == share * total as real;
  }

  lemma UntimedEntry<S>(st: seq<StopTime<S>>, distance: (S, S) -> real, i: nat, p: nat, q: nat, traveled: real, between: real,
                        totalTime: int, start: int)
    requires EndsTimed(st) && i < |st| && st[i].secs.None? && p == Previous(st, i) && q == Next(st, i)
    requires traveled == Between(st, distance, p, i) && between == Between(st, distance, p, q)
    requires totalTime == st[q].secs.value - st[p].secs.value && start == st[p].secs.value
    ensures NoDistanceAt(st, distance, i) <==> between == 0.0
    ensures between != 0.0 ==>
              EntryAt(st, distance, i) ==
              Entry(Round(traveled / between * totalTime as real + start as real), st[i], false)
  {
    hide Round, Linear;
    if between != 0.0 {
      LinearIs(traveled, between, st[p].secs.value, st[q].secs.value, totalTime);
    }
  }

  /**
   The timed stops at their times, the others at their estimates; no times at all if the first or the last stop is
   untimed, or if an untimed stop lies on a stretch of no distance.  The search for the next timepoint ends.
   */
  method GetTimeInterpolatedStops<S>(st: seq<StopTime<S>>, distance: (S, S) -> real) returns (r: Outcome<S>)
    ensures st == [] ==> r == Times([])
    ensures st != [] ==> (r.MissingTime? <==> !EndsTimed(st))
    ensures EndsTimed(st) ==> (r.ZeroDistance? <==> exists i :: NoDistanceAt(st, distance, i))
    ensures EndsTimed(st) && r.Times? ==> |r.entries| == |st| && forall i :: 0 <= i < |st| ==>
              !NoDistanceAt(st, distance, i) && r.entries[i] == EntryAt(st, distance, i)
    ensures EndsTimed(st) && r.Times? ==> forall i :: 0 <= i < |st| ==> EntryRight(st, distance, i, r.entries[i])
  {
    hide Round, EntryAt, Estimate, Linear, EntryRight;
    if st == [] {
      return Times([]);
    }
    if st[0].secs.None? || st[|st| - 1].secs.None? {
      return MissingTime;
    }
    var cur, next := 0, 0;
    var between, traveled := 0.0, 0.0;
    var rv := [];
    for i := 0 to |st|
      invariant |rv| == i
      invariant forall k :: 0 <= k < i ==> !NoDistanceAt(st, distance, k) && rv[k] == EntryAt(st, distance, k)
      invariant i > 0 ==> cur == Previous(st, i - 1) && traveled == Between(st, distance, cur, i - 1)
      invariant i > 0 && cur + 1 < |st| ==> next == Next(st, cur + 1) && between == Between(st, distance, cur, next)
    {
      if st[i].secs.Some? {
        cur, traveled := i, 0.0;
        if i + 1 < |st| {
          next, between := NextTimepoint(st, distance, i);
        }
        TimedEntry(st, distance, i);
        rv := rv + [Entry(st[i].secs.value, st[i], true)];
      } else {
        SameNeighbours(st, cur, i);
        traveled := traveled + distance(st[i - 1].stop, st[i].stop);
        var totalTime := st[next].secs.value - st[cur].secs.value;
        UntimedEntry(st, distance, i, cur, next, traveled, between, totalTime, st[cur].secs.value);
        if between == 0.0 {
          assert NoDistanceAt(st, distance, i);
          return ZeroDistance;
        }
        var estimate := traveled / between * totalTime as real + st[cur].secs.value as real;
        rv := rv + [Entry(Round(estimate), st[i], false)];
      }
    }
    forall i | 0 <= i < |st|
      ensures EntryRight(st, distance, i, rv[i])
    {
      EntryAtIsRight(st, distance, i);
    }
    r := Times(rv);
  }

  method NextTimepoint<S>(st: seq<StopTime<S>>, distance: (S, S) -> real, i: nat) returns (k: nat, between: real)
    requires EndsTimed(st) && i + 1 < |st|
    ensures k == Next(st, i + 1) && between == Between(st, distance, i, k)
  {
    k := i + 1;
    between := distance(st[k - 1].stop, st[k].stop);
    while st[k].secs.None?
      invariant i < k < |st| && Next(st, k) == Next(st, i + 1)
      invariant between == Between(st, distance, i, k)
      decreases |st| - k
    {
      k := k + 1;
      between := between + distance(st[k - 1].stop, st[k].stop);
    }
  }

  // ---------- the times are in order ----------

  /** The given times do not decrease. */
  ghost predicate TimesOrdered<S>(st: seq<StopTime<S>>) {
    forall i, j :: 0 <= i < j < |st| && st[i].secs.Some? && st[j].secs.Some? ==> st[i].secs.value <= st[j].secs.value
  }

  lemma Share(x: real, y: real, whole: real, t: real)
    requires 0.0 <= x <= y <= whole && whole > 0.0 && t >= 0.0
    ensures 0.0 <= x / whole * t <= y / whole * t <= t
  {
    DivideUp(0.0, x, whole);
    DivideUp(x, y, whole);
    DivideUp(y, whole, whole);
    ScaleUp(x / whole, y / whole, t);
    ScaleUp(y / whole, 1.0, t);
  }

  lemma DivideUp(x: real, y: real, w: real)
    requires x <= y && w > 0.0
    ensures 0.0 / w == 0.0 && w / w == 1.0 && x / w <= y / w
  {
    var u, v := x / w, y / w;
    assert u * w == x && v * w == y;
    assert (u - v) * w <= 0.0;
  }

  lemma ScaleUp(x: real, y: real, t: real)
    requires 0.0 <= x <= y && t >= 0.0
    ensures 0.0 <= x * t <= y * t
  {
  }

  lemma LinearBetween(x: real, y: real, whole: real, a: int, b: int)
    requires 0.0 <= x <= y <= whole && whole > 0.0 && a <= b
    ensures a as real <= Linear(x, whole, a, b) <= Linear(y, whole, a, b) <= b as real
  {
    hide Linear;
    var total := b - a;
    Share(x, y, whole, total as real);
    LinearIs(x, whole, a, b, total);
    LinearIs(y, whole, a, b, total);
    assert total as real + a as real == b as real;
  }

  lemma RoundedBetween(x: real, y: real, a: int, b: int)
    requires a as real <= x <= y <= b as real
    ensures a <= Round(x) <= Round(y) <= b
  {
    RoundMonotone(a as real, x);
    RoundMonotone(x, y);
    RoundMonotone(y, b as real);
    RoundInteger(a);
    RoundInteger(b);
  }

  lemma LinearGrows(x: real, y: real, whole: real, a: int, b: int)
    requires 0.0 <= x <= y <= whole && whole > 0.0 && a <= b
    ensures a <= Round(Linear(x, whole, a, b)) <= Round(Linear(y, whole, a, b)) <= b
  {
    LinearBetween(x, y, whole, a, b);
    var lx, ly := Linear(x, whole, a, b), Linear(y, whole, a, b);
    RoundedBetween(lx, ly, a, b);
  }

  /** A guess lies between the surrounding times. */
  lemma GuessIsBetween<S(!new)>(st: seq<StopTime<S>>, distance: (S, S) -> real, i: nat)
    requires EndsTimed(st) && i < |st| && TimesOrdered(st) && NonNegative(distance) && !NoDistanceAt(st, distance, i)
    ensures st[Previous(st, i)].secs.value <= EntryAt(st, distance, i).secs <= st[Next(st, i)].secs.value
  {
    if st[i].secs.Some? {
      RoundInteger(st[i].secs.value);
    } else {
      var p, q := Previous(st, i), Next(st, i);
      var x, whole := Between(st, distance, p, i), Between(st, distance, p, q);
      BetweenGrows(st, distance, p, i, q);
      LinearGrows(x, x, whole, st[p].secs.value, st[q].secs.value);
    }
  }

  /** The times, given and guessed, do not decrease from one stop to the next. */
  lemma NextIsNoEarlier<S(!new)>(st: seq<StopTime<S>>, distance: (S, S) -> real, i: nat)
    requires EndsTimed(st) && i + 1 < |st| && TimesOrdered(st) && NonNegative(distance)
    requires !NoDistanceAt(st, distance, i) && !NoDistanceAt(st, distance, i + 1)
    ensures EntryAt(st, distance, i).secs <= EntryAt(st, distance, i + 1).secs
  {
    var p := Previous(st, i);
    GuessIsBetween(st, distance, i);
    GuessIsBetween(st, distance, i + 1);
    if st[i].secs.None? && st[i + 1].secs.None? {
      var q := Next(st, i);
      BetweenGrows(st, distance, p, i, i + 1);
      BetweenGrows(st, distance, p, i + 1, q);
      LinearGrows(Between(st, distance, p, i), Between(st, distance, p, i + 1), Between(st, distance, p, q),
                  st[p].secs.value, st[q].secs.value);
    }
  }

  lemma {:induction false} TimesNeverDecrease<S(!new)>(st: seq<StopTime<S>>, distance: (S, S) -> real, i: nat, j: nat)
    requires EndsTimed(st) && i <= j < |st| && TimesOrdered(st) && NonNegative(distance)
    requires forall k :: i <= k <= j ==> !NoDistanceAt(st, distance, k)
    ensures EntryAt(st, distance, i).secs <= EntryAt(st, distance, j).secs
    decreases j
  {
    if i < j {
      TimesNeverDecrease(st, distance, i, j - 1);
      NextIsNoEarlier(st, distance, j - 1);
    }
  }
}
