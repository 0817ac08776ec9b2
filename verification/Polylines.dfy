/**
 Points, an abstract distance between them, and polylines: length, reversal and merging.
 The distance is a parameter, of which only the metric laws are used.
 */
module Polylines {
  import opened Wrappers
  import opened Sequences

  datatype Point = Point(x: real, y: real, z: real)

  /** The order that Point's comparison defines: coordinate by coordinate. */
  predicate PointLess(a: Point, b: Point) {
    a.x < b.x || (a.x == b.x && (a.y < b.y || (a.y == b.y && a.z < b.z)))
  }

  function Coordinates(a: Point): seq<real> {
    [a.x, a.y, a.z]
  }

  /** Points compare by the first coordinate that differs. */
  lemma PointOrder(a: Point, b: Point)
    ensures PointLess(a, b) <==>
            exists k :: 0 <= k < 3 && Coordinates(a)[k] < Coordinates(b)[k] && forall j :: 0 <= j < k ==> Coordinates(a)[j] == Coordinates(b)[j]
  {
    var u, v := Coordinates(a), Coordinates(b);
    if k :| 0 <= k < 3 && u[k] < v[k] && forall j :: 0 <= j < k ==> u[j] == v[j] {
      assert k == 0 || u[0] == v[0];
      assert k <= 1 || u[1] == v[1];
    }
    if PointLess(a, b) {
      var k := if a.x < b.x then 0 else if a.y < b.y then 1 else 2;
      assert u[k] < v[k] && forall j :: 0 <= j < k ==> u[j] == v[j];
    }
  }

  type Distance = (Point, Point) -> real

  ghost predicate TriangleAt(d: Distance, a: Point, b: Point, c: Point) {
    d(a, c) <= d(a, b) + d(b, c)
  }

  ghost predicate Metric(d: Distance) {
    && (forall a, b :: 0.0 <= d(a, b))
    && (forall a, b :: d(a, b) == 0.0 <==> a == b)
    && (forall a, b :: d(a, b) == d(b, a))
    && (forall a, b, c :: TriangleAt(d, a, b, c))
  }

  /** A polyline: its points in order, and the name it was loaded under, if any. */
  datatype Poly = Poly(points: seq<Point>, name: Option<string>)

  function First(e: Poly): Point
    requires e.points != []
  {
    e.points[0]
  }

  function Last(e: Poly): Point
    requires e.points != []
  {
    e.points[|e.points| - 1]
  }

  // ---------- length ----------

  function Length(d: Distance, pts: seq<Point>): real {
    if |pts| <= 1 then 0.0
    else Length(d, pts[..|pts| - 1]) + d(pts[|pts| - 2], pts[|pts| - 1])
  }

  method LengthMeters(d: Distance, p: Poly) returns (length: real)
    requires p.points != []
    ensures length == Length(d, p.points)
  {
    length := 0.0;
    for i := 0 to |p.points| - 1
      invariant length == Length(d, p.points[..i + 1])
    {
      assert p.points[..i + 2][..i + 1] == p.points[..i + 1];
      length := length + d(p.points[i], p.points[i + 1]);
    }
    assert p.points[..|p.points|] == p.points;
  }

  /** Joining at a shared point adds the lengths. */
  lemma {:induction false} LengthJoin(d: Distance, p: seq<Point>, q: seq<Point>)
    requires p != [] && q != [] && p[|p| - 1] == q[0]
    ensures Length(d, p + q[1..]) == Length(d, p) + Length(d, q)
    decreases |q|
  {
    if |q| == 1 {
      assert p + q[1..] == p;
    } else {
      var q' := q[..|q| - 1];
      LengthJoin(d, p, q');
      assert (p + q[1..])[..|p + q[1..]| - 1] == p + q'[1..];
    }
  }

  /** No polyline is shorter than the distance between its ends. */
  lemma {:induction false} LengthAtLeastSpan(d: Distance, pts: seq<Point>)
    requires Metric(d) && pts != []
    ensures d(pts[0], pts[|pts| - 1]) <= Length(d, pts)
    decreases |pts|
  {
    if |pts| == 1 {
      assert d(pts[0], pts[0]) == 0.0;
    } else {
      LengthAtLeastSpan(d, pts[..|pts| - 1]);
      assert TriangleAt(d, pts[0], pts[|pts| - 2], pts[|pts| - 1]);
    }
  }

  // ---------- reversal ----------

  function Reversed(pts: seq<Point>): (r: seq<Point>)
    ensures |r| == |pts|
    ensures forall i :: 0 <= i < |pts| ==> r[i] == pts[|pts| - 1 - i]
  {
    seq(|pts|, i requires 0 <= i < |pts| => pts[|pts| - 1 - i])
  }

  lemma ReversedJoin(pts: seq<Point>)
    requires |pts| >= 2
    ensures var n := |pts|; Reversed(pts) == [pts[n - 1], pts[n - 2]] + Reversed(pts[..n - 1])[1..]
  {
  }

  lemma HopLength(d: Distance, x: Point, y: Point)
    ensures Length(d, [x, y]) == d(x, y)
  {
    assert [x, y][..1] == [x];
  }

  lemma {:induction false} LengthReversed(d: Distance, pts: seq<Point>)
    requires Metric(d)
    ensures Length(d, Reversed(pts)) == Length(d, pts)
    decreases |pts|
  {
    if |pts| >= 2 {
      var n := |pts|;
      var init := pts[..n - 1];
      LengthReversed(d, init);
      var hop := [pts[n - 1], pts[n - 2]];
      LengthJoin(d, hop, Reversed(init));
      ReversedJoin(pts);
      HopLength(d, pts[n - 1], pts[n - 2]);
    } else {
      assert Reversed(pts) == pts;
    }
  }

  // ---------- merging ----------

  function MergePoints(d: Distance, p: seq<Point>, q: seq<Point>, threshold: real): seq<Point> {
    if p != [] && q != [] && d(p[|p| - 1], q[0]) <= threshold then p + q[1..] else p + q
  }

  function MergedPoints(d: Distance, polys: seq<Poly>, threshold: real): seq<Point> {
    if polys == [] then []
    else MergePoints(d, MergedPoints(d, polys[..|polys| - 1], threshold), polys[|polys| - 1].points, threshold)
  }

  function NameOrEmpty(p: Poly): string {
    match p.name case None => "" case Some(s) => s
  }

  function JoinedNames(polys: seq<Poly>): string {
    if polys == [] then ""
    else if |polys| == 1 then NameOrEmpty(polys[0])
    else JoinedNames(polys[..|polys| - 1]) + ";" + NameOrEmpty(polys[|polys| - 1])
  }

  /** The joined name of a list in two parts is that of the first, a semicolon and that of the second. */
  lemma {:induction false} NamesInOrder(polys: seq<Poly>, more: seq<Poly>)
    requires polys != [] && more != []
    ensures JoinedNames(polys + more) == JoinedNames(polys) + ";" + JoinedNames(more)
    ensures |more| == 1 ==> JoinedNames(more) == match more[0].name case None => "" case Some(s) => s
    decreases |more|
  {
    var init, last := more[..|more| - 1], more[|more| - 1];
    SplitLast(more);
    JoinedSnoc(polys + init, last);
    assert polys + init + [last] == polys + more;
    if init == [] {
      assert polys + init == polys;
    } else {
      NamesInOrder(polys, init);
      JoinedSnoc(init, last);
      SemicolonsAssociate(JoinedNames(polys), JoinedNames(init), NameOrEmpty(last));
    }
  }

  lemma JoinedSnoc(polys: seq<Poly>, p: Poly)
    requires polys != []
    ensures JoinedNames(polys + [p]) == JoinedNames(polys) + ";" + NameOrEmpty(p)
  {
    Snoc(polys, p);
  }

  lemma JoinedOne(p: Poly)
    ensures JoinedNames([p]) == NameOrEmpty(p)
  {
  }

  lemma SemicolonsAssociate(s: string, t: string, u: string)
    ensures s + ";" + t + ";" + u == s + ";" + (t + ";" + u)
  {
  }

  /** The parts of a string between its semicolons. */
  function Parts(s: string): (r: seq<string>)
    ensures r != []
  {
    if s == [] then [[]]
    else
      var before, c := Parts(s[..|s| - 1]), s[|s| - 1];
      if c == ';' then before + [[]] else before[|before| - 1 := before[|before| - 1] + [c]]
  }

  lemma {:induction false} PartsOfName(s: string, name: string)
    requires forall i :: 0 <= i < |name| ==> name[i] != ';'
    ensures Parts(s + ";" + name) == Parts(s) + [name]
    ensures Parts(name) == [name]
    decreases |name|
  {
    var all := s + ";" + name;
    if name == [] {
      assert all[..|all| - 1] == s;
    } else {
      var init := name[..|name| - 1];
      PartsOfName(s, init);
      assert all[..|all| - 1] == s + ";" + init;
      assert name == init + [name[|name| - 1]];
    }
  }

  /** Names without semicolons can be read back from the joined name, in order. */
  lemma {:induction false} PartsAreNames(polys: seq<Poly>)
    requires polys != [] && forall k, i :: 0 <= k < |polys| && 0 <= i < |NameOrEmpty(polys[k])| ==> NameOrEmpty(polys[k])[i] != ';'
    ensures |Parts(JoinedNames(polys))| == |polys|
    ensures forall k :: 0 <= k < |polys| ==> Parts(JoinedNames(polys))[k] == NameOrEmpty(polys[k])
    decreases |polys|
  {
    hide JoinedNames, Parts, NameOrEmpty;
    var n := |polys| - 1;
    var init, last := polys[..n], polys[n];
    SplitLast(polys);
    PartsOfName(JoinedNames(init), NameOrEmpty(last));
    if n > 0 {
      PartsAreNames(init);
      JoinedSnoc(init, last);
    } else {
      JoinedOne(last);
    }
  }

  function Merged(d: Distance, polys: seq<Poly>, threshold: real): Poly {
    Poly(MergedPoints(d, polys, threshold), Some(JoinedNames(polys)))
  }

  method MergePolys(d: Distance, polys: seq<Poly>, threshold: real) returns (merged: Poly)
    ensures merged == Merged(d, polys, threshold)
  {
    var points: seq<Point> := [];
    for k := 0 to |polys|
      invariant points == MergedPoints(d, polys[..k], threshold)
    {
      assert polys[..k + 1][..k] == polys[..k];
      var poly := polys[k];
      var tail := if k > 0 && points != [] && poly.points != [] && d(points[|points| - 1], poly.points[0]) <= threshold
                  then poly.points[1..] else poly.points;
      ghost var before := points;
      for i := 0 to |tail|
        invariant points == before + tail[..i]
      {
        points := points + [tail[i]];
      }
      assert tail[..|tail|] == tail;
    }
    assert polys[..|polys|] == polys;
    merged := Poly(points, Some(JoinedNames(polys)));
  }

  /** Two polylines that meet, merged at threshold zero, keep the shared point once. */
  function Join(p: seq<Point>, q: seq<Point>): seq<Point> {
    if p == [] then q else if q == [] then p else p + q[1..]
  }

  lemma MergedIsJoin(d: Distance, p: Poly, q: Poly)
    requires Metric(d)
    requires p.points != [] && q.points != [] ==> Last(p) == First(q)
    ensures Merged(d, [p, q], 0.0).points == Join(p.points, q.points)
  {
    MergedFirst(d, p, 0.0);
    assert [p, q][..1] == [p] && [p, q][1] == q;
  }

  /** At any threshold: the second polyline's first point is left out exactly if it is no farther than that from the last one. */
  lemma MergedPair(d: Distance, p: Poly, q: Poly, threshold: real)
    requires p.points != [] && q.points != []
    ensures Merged(d, [p, q], threshold).points ==
            p.points + if d(Last(p), First(q)) <= threshold then q.points[1..] else q.points
  {
    MergedFirst(d, p, threshold);
    assert [p, q][..1] == [p] && [p, q][1] == q;
  }

  lemma MergedFirst(d: Distance, p: Poly, threshold: real)
    ensures MergedPoints(d, [p], threshold) == p.points
  {
    assert [p][..0] == [];
    assert MergedPoints(d, [], threshold) == [];
  }
}
