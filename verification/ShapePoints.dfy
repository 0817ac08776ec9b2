/** The points of a shape, kept in order of their sequence numbers, and the point at a given distance. */
module ShapePoints {
  import opened Wrappers

  datatype ShapePoint = ShapePoint(lat: real, lon: real, sequence: int, distance: Option<real>)

  datatype Place = Place(lat: real, lon: real, distance: Option<real>)

  datatype Problem =
    | RepeatedSequence(sequence: int)
    | LargerThanNext(next: real)
    | SmallerThanPrevious(previous: real)

  // ---------- bisection ----------

  /** bisect.bisect: the place before the members above the value looked for, if the list is sorted. */
  function Bisect<T>(a: seq<T>, above: T -> bool, lo: nat, hi: nat): (r: nat)
    requires lo <= hi <= |a|
    ensures lo <= r <= hi
    decreases hi - lo
  {
    if lo == hi then lo
    else
      var mid := (lo + hi) / 2;
      if above(a[mid]) then Bisect(a, above, lo, mid) else Bisect(a, above, mid + 1, hi)
  }

  /** Whether sorted or not, the member before the place is not above, and the member at it is. */
  lemma {:induction false} BisectSplits<T>(a: seq<T>, above: T -> bool, lo: nat, hi: nat)
    requires lo <= hi <= |a|
    requires (lo > 0 ==> !above(a[lo - 1])) && (hi < |a| ==> above(a[hi]))
    ensures var r := Bisect(a, above, lo, hi); (r > 0 ==> !above(a[r - 1])) && (r < |a| ==> above(a[r]))
    decreases hi - lo
  {
    if lo < hi {
      var mid := (lo + hi) / 2;
      if above(a[mid]) {
        BisectSplits(a, above, lo, mid);
      } else {
        BisectSplits(a, above, mid + 1, hi);
      }
    }
  }

  ghost predicate Sorted(a: seq<real>) {
    forall i, j :: 0 <= i < j < |a| ==> a[i] <= a[j]
  }

  // ---------- insertion ----------

  /** Where a point goes: at an end if it belongs there, or else by bisection. */
  function InsertionIndex(sequence: seq<int>, x: int): (r: nat)
    ensures r <= |sequence|
  {
    if sequence == [] || x >= sequence[|sequence| - 1] then |sequence|
    else if x <= sequence[0] then 0
    else Bisect(sequence, y => x < y, 0, |sequence|)
  }

  ghost predicate InOrder(s: seq<int>) {
    forall i, j :: 0 <= i < j < |s| ==> s[i] <= s[j]
  }

  lemma SplitKeepsOrder(s: seq<int>, x: int, i: nat)
    requires InOrder(s) && i <= |s| && (i > 0 ==> s[i - 1] <= x) && (i < |s| ==> x <= s[i])
    ensures InOrder(s[..i] + [x] + s[i..])
  {
    forall k | 0 <= k < |s|
      ensures if k < i then s[k] <= x else x <= s[k]
    {
    }
  }

  lemma InsertionKeepsOrder(s: seq<int>, x: int)
    requires InOrder(s)
    ensures var i := InsertionIndex(s, x); InOrder(s[..i] + [x] + s[i..])
  {
    BisectSplits(s, y => x < y, 0, |s|);
    SplitKeepsOrder(s, x, InsertionIndex(s, x));
  }

  /** i is the place after all numbers up to x; but a number that is the first and not the last goes before all. */
  ghost predicate IsPlaceFor(s: seq<int>, x: int, i: nat) {
    && i <= |s|
    && if s != [] && x == s[0] && x < s[|s| - 1] then i == 0
       else (forall k :: 0 <= k < i ==> s[k] <= x) && (forall k :: i <= k < |s| ==> x < s[k])
  }

  lemma InsertionIndexIs(s: seq<int>, x: int)
    requires InOrder(s)
    ensures IsPlaceFor(s, x, InsertionIndex(s, x))
  {
    BisectSplits(s, y => x < y, 0, |s|);
  }

  /** The knots' distances, where all are given. */
  function Distances(ds: seq<Option<real>>): (r: seq<real>)
    requires AllGiven(ds)
    ensures |r| == |ds| && forall i :: 0 <= i < |ds| ==> ds[i] == Some(r[i])
  {
    seq(|ds|, i requires 0 <= i < |ds| => ds[i].value)
  }

  ghost predicate AllGiven(ds: seq<Option<real>>) {
    forall i :: 0 <= i < |ds| ==> ds[i].Some?
  }

  /** Inserting keeps distances sorted exactly if the new one does not exceed the next nor fall below the previous. */
  lemma SortedInsertion(a: seq<real>, x: real, i: nat)
    requires Sorted(a) && i <= |a|
    ensures Sorted(a[..i] + [x] + a[i..]) <==> (i < |a| ==> x <= a[i]) && (i > 0 ==> a[i - 1] <= x)
  {
    var b := a[..i] + [x] + a[i..];
    if Sorted(b) {
      assert b[i] == x;
      assert i < |a| ==> b[i + 1] == a[i];
      assert i > 0 ==> b[i - 1] == a[i - 1];
    }
  }

  lemma InsertedDistances(ds: seq<Option<real>>, d: Option<real>, i: nat)
    requires i <= |ds|
    ensures AllGiven(ds[..i] + [d] + ds[i..]) <==> AllGiven(ds) && d.Some?
    ensures AllGiven(ds) && d.Some? ==>
              Distances(ds[..i] + [d] + ds[i..]) == Distances(ds)[..i] + [d.value] + Distances(ds)[i..]
  {
    var es := ds[..i] + [d] + ds[i..];
    assert es[i] == d;
    forall k | 0 <= k < |ds|
      ensures ds[k] == es[if k < i then k else k + 1]
    {
    }
  }

  ghost predicate IsMonotone(ds: seq<Option<real>>) {
    AllGiven(ds) && Sorted(Distances(ds))
  }

  lemma MonotoneInsertion(ds: seq<Option<real>>, d: Option<real>, i: nat)
    requires i <= |ds|
    ensures IsMonotone(ds) && d.Some? ==>
              (IsMonotone(ds[..i] + [d] + ds[i..]) <==>
               (i < |ds| ==> d.value <= ds[i].value) && (i > 0 ==> ds[i - 1].value <= d.value))
  {
    InsertedDistances(ds, d, i);
    if IsMonotone(ds) && d.Some? {
      SortedInsertion(Distances(ds), d.value, i);
    }
  }

  // ---------- the shape ----------

  class Shape {
    var points: seq<Place>
    var maxDistance: real
    var distance: seq<Option<real>>
    var sequence: seq<int>

    constructor ()
      ensures Valid() && points == []
    {
      points, maxDistance, distance, sequence := [], 0.0, [], [];
    }

    /** The lists are aligned and in order, and no distance is larger than the maximum, which is one of them or zero. */
    ghost predicate Valid()
      reads this
    {
      && |points| == |distance| == |sequence| && InOrder(sequence)
      && (forall i :: 0 <= i < |points| ==> points[i].distance == distance[i])
      && maxDistance >= 0.0 && (forall i :: 0 <= i < |distance| && distance[i].Some? ==> distance[i].value <= maxDistance)
      && (maxDistance == 0.0 || Some(maxDistance) in distance)
    }

    /** Given distances only that do not decrease. */
    ghost predicate Monotone()
      reads this
    {
      IsMonotone(distance)
    }

    /**
     The point goes in at its place and all others stay.  The insertion fails, and changes nothing, only if the
     distance has to be compared with one that is not given.  Distances stay monotone exactly if no problem with
     them is reported.
     */
    method AddShapePointObjectUnsorted(p: ShapePoint) returns (problems: seq<Problem>, failed: bool)
      requires Valid()
      modifies this
      ensures Valid()
      ensures var i := InsertionIndex(old(sequence), p.sequence);
              IsPlaceFor(old(sequence), p.sequence, i) &&
              if failed then
                && points == old(points) && distance == old(distance) && sequence == old(sequence)
                && p.distance.Some? && !AllGiven(old(distance))
              else
                && sequence == old(sequence[..i]) + [p.sequence] + old(sequence[i..])
                && points == old(points[..i]) + [Place(p.lat, p.lon, p.distance)] + old(points[i..])
      ensures RepeatedSequence(p.sequence) in problems <==> p.sequence in old(sequence)
      ensures old(Monotone()) && p.distance.Some? ==>
                !failed && (Monotone() <==> forall q :: q in problems ==> q.RepeatedSequence?)
    {
      problems, failed := [], false;
      var index := InsertionIndex(sequence, p.sequence);
      InsertionKeepsOrder(sequence, p.sequence);
      InsertionIndexIs(sequence, p.sequence);
      if p.sequence in sequence {
        problems := problems + [RepeatedSequence(p.sequence)];
      }
      if p.distance.Some? && sequence != [] {
        var more;
        more, failed := CheckDistance(p.distance.value, index);
        problems := problems + more;
        assert more != [] ==> more[0] in problems;
        if failed {
          return;
        }
      }
      InsertAt(index, p);
      MonotoneInsertion(old(distance), p.distance, index);
    }

    /** The distance against those on both sides of its place. */
    method CheckDistance(x: real, index: nat) returns (problems: seq<Problem>, failed: bool)
      requires index <= |distance|
      ensures failed ==> !AllGiven(distance)
      ensures forall q :: q in problems ==> !q.RepeatedSequence?
      ensures AllGiven(distance) ==>
                (problems == [] <==> (index < |distance| ==> x <= distance[index].value) && (index > 0 ==> distance[index - 1].value <= x))
    {
      problems, failed := [], false;
      if index != |distance| {
        if distance[index].None? {
          return problems, true;
        }
        if x > distance[index].value {
          problems := problems + [LargerThanNext(distance[index].value)];
        }
      }
      if index > 0 {
        if distance[index - 1].None? {
          return problems, true;
        }
        if x < distance[index - 1].value {
          problems := problems + [SmallerThanPrevious(distance[index - 1].value)];
        }
      }
    }

    /** The new maximum and the three insertions. */
    method InsertAt(index: nat, p: ShapePoint)
      requires Valid() && index <= |points| && InOrder(sequence[..index] + [p.sequence] + sequence[index..])
      modifies this
      ensures Valid()
      ensures sequence == old(sequence[..index]) + [p.sequence] + old(sequence[index..])
      ensures distance == old(distance[..index]) + [p.distance] + old(distance[index..])
      ensures points == old(points[..index]) + [Place(p.lat, p.lon, p.distance)] + old(points[index..])
    {
      ghost var ds := distance;
      if p.distance.Some? && p.distance.value != 0.0 && p.distance.value > maxDistance {
        maxDistance := p.distance.value;
      }
      sequence := sequence[..index] + [p.sequence] + sequence[index..];
      distance := distance[..index] + [p.distance] + distance[index..];
      points := points[..index] + [Place(p.lat, p.lon, p.distance)] + points[index..];
      assert distance[index] == p.distance;
      forall d
        ensures d in distance <==> d in ds || d == p.distance
      {
        assert ds == ds[..index] + ds[index..];
      }
    }

    /**
     A point at an end, or one between the two neighbouring points whose distances surround the given one, on the
     line through them; there always is one, in whatever order the distances are.
     */
    method GetPointWithDistanceTraveled(x: real) returns (r: Option<Place>)
      requires Valid() && AllGiven(distance)
      ensures r.None? <==> points == []
      ensures r.Some? ==> IsPointAt(points, x, r.value)
    {
      if distance == [] {
        return None;
      }
      if x <= distance[0].value {
        return Some(points[0]);
      }
      if x >= distance[|distance| - 1].value {
        return Some(points[|points| - 1]);
      }
      var ds := Distances(distance);
      var index := Bisect(ds, y => x < y, 0, |ds|);
      BisectSplits(ds, y => x < y, 0, |ds|);
      r := PointBetween(index, x);
    }

    method PointBetween(index: nat, x: real) returns (r: Option<Place>)
      requires Valid() && AllGiven(distance) && 0 < index < |points|
      requires distance[index - 1].value <= x < distance[index].value
      ensures r.Some? && IsBetween(points, index, x, r.value)
    {
      var before, after := points[index - 1], points[index];
      var ca := x - distance[index - 1].value;
      var bc := distance[index].value - x;
      var ba := bc + ca;
      if ba == 0.0 {
        return None;
      }
      var lat := (after.lat * ca + before.lat * bc) / ba;
      var lon := (after.lon * ca + before.lon * bc) / ba;
      assert lat == Mean(before.lat, after.lat, ca, bc) && lon == Mean(before.lon, after.lon, ca, bc);
      r := Some(Place(lat, lon, Some(x)));
    }
  }

  // ---------- the point at a distance ----------

  ghost predicate AllMeasured(points: seq<Place>) {
    forall i :: 0 <= i < |points| ==> points[i].distance.Some?
  }

  /** The weighted mean of a and b, ca away from a and bc from b. */
  function Mean(a: real, b: real, ca: real, bc: real): real
    requires ca + bc != 0.0
  {
    (b * ca + a * bc) / (bc + ca)
  }

  ghost predicate IsBetween(points: seq<Place>, i: int, x: real, r: Place)
    requires AllMeasured(points)
  {
    && 0 < i < |points| && points[i - 1].distance.value <= x < points[i].distance.value && r.distance == Some(x)
    && (var ca, bc := x - points[i - 1].distance.value, points[i].distance.value - x;
        r.lat == Mean(points[i - 1].lat, points[i].lat, ca, bc) && r.lon == Mean(points[i - 1].lon, points[i].lon, ca, bc))
  }

  ghost predicate IsPointAt(points: seq<Place>, x: real, r: Place)
    requires AllMeasured(points)
  {
    points != [] &&
    var n := |points| - 1;
    if x <= points[0].distance.value then r == points[0]
    else if x >= points[n].distance.value then r == points[n]
    else exists i :: IsBetween(points, i, x, r)
  }

  /** A mean lies between the two; it is the first one at no distance from it. */
  lemma MeanIsBetween(a: real, b: real, ca: real, bc: real)
    requires ca >= 0.0 && bc > 0.0
    ensures (if a <= b then a else b) <= Mean(a, b, ca, bc) <= (if a <= b then b else a)
    ensures ca == 0.0 ==> Mean(a, b, ca, bc) == a
  {
    var w := ca + bc;
    var m := Mean(a, b, ca, bc);
    assert m * w == b * ca + a * bc;
    assert (m - a) * w == (b - a) * ca;
    assert (b - m) * w == (b - a) * bc;
    SignOf(m - a, w, (b - a) * ca);
    SignOf(b - m, w, (b - a) * bc);
    if a <= b {
      Product(b - a, ca);
      Product(b - a, bc);
    } else {
      Product(a - b, ca);
      Product(a - b, bc);
    }
  }

  lemma Product(x: real, y: real)
    requires x >= 0.0 && y >= 0.0
    ensures x * y >= 0.0
  {
  }

  lemma SignOf(x: real, w: real, p: real)
    requires w > 0.0 && x * w == p
    ensures p >= 0.0 ==> x >= 0.0
    ensures p <= 0.0 ==> x <= 0.0
  {
  }

  /** m divides the way from a to b in the ratio of ca to bc. */
  predicate Divides(a: real, b: real, m: real, ca: real, bc: real) {
    (m - a) * bc == (b - m) * ca
  }

  lemma MeanDivides(a: real, b: real, ca: real, bc: real)
    requires ca + bc != 0.0
    ensures Divides(a, b, Mean(a, b, ca, bc), ca, bc)
  {
    var w, m := ca + bc, Mean(a, b, ca, bc);
    assert m * w == b * ca + a * bc;
    assert (m - a) * bc - (b - m) * ca == m * w - b * ca - a * bc;
  }

  /** The point found is between its two neighbours in both coordinates, and one of them at its own distance. */
  lemma PointIsBetween(points: seq<Place>, i: int, x: real, r: Place)
    requires AllMeasured(points) && IsBetween(points, i, x, r)
    ensures var a, b := points[i - 1], points[i];
            && (if a.lat <= b.lat then a.lat <= r.lat <= b.lat else b.lat <= r.lat <= a.lat)
            && (if a.lon <= b.lon then a.lon <= r.lon <= b.lon else b.lon <= r.lon <= a.lon)
            && (x == a.distance.value ==> r == a)
            && Divides(a.lat, b.lat, r.lat, x - a.distance.value, b.distance.value - x)
            && Divides(a.lon, b.lon, r.lon, x - a.distance.value, b.distance.value - x)
  {
    hide Mean, Divides;
    var a, b := points[i - 1], points[i];
    var ca, bc := x - a.distance.value, b.distance.value - x;
    MeanIsBetween(a.lat, b.lat, ca, bc);
    MeanIsBetween(a.lon, b.lon, ca, bc);
    MeanDivides(a.lat, b.lat, ca, bc);
    MeanDivides(a.lon, b.lon, ca, bc);
  }

  /** At the distance of a point, a point of just that distance is found: exactness at the knots. */
  lemma ExactAtKnots(points: seq<Place>, k: nat, r: Place)
    requires AllMeasured(points) && k < |points|
    requires forall i, j :: 0 <= i < j < |points| ==> points[i].distance.value <= points[j].distance.value
    requires IsPointAt(points, points[k].distance.value, r)
    ensures r in points && r.distance == points[k].distance
  {
    var x := points[k].distance.value;
    var n := |points| - 1;
    if points[0].distance.value < x < points[n].distance.value {
      var i :| IsBetween(points, i, x, r);
      PointIsBetween(points, i, x, r);
      assert k <= i - 1;
    }
  }
}
