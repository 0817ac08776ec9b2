/**
 Graphs whose edges are polylines, and walks through them.

 A node's edges are kept in the order in which iterating over its edge set yields them.  That order
 is arbitrary, and so is every sequence quantified over here: what is proved holds for every order.
 */
module Walks {
  import opened Wrappers
  import opened Polylines

  type Nodes = map<Point, seq<Poly>>

  /** The end of edge that the search goes on to from x. */
  function OtherEnd(edge: Poly, x: Point): Point
    requires edge.points != []
  {
    if First(edge) == x then Last(edge) else First(edge)
  }

  predicate Touches(edge: Poly, x: Point) {
    edge.points != [] && (First(edge) == x || Last(edge) == x)
  }

  /** Every edge filed under a node ends there, and is filed under its other end too. */
  ghost predicate WellFormed(nodes: Nodes) {
    forall x, e :: x in nodes && e in nodes[x] ==> EdgeFiled(nodes, x, e)
  }

  ghost predicate EdgeFiled(nodes: Nodes, x: Point, e: Poly) {
    Touches(e, x) && OtherEnd(e, x) in nodes && e in nodes[OtherEnd(e, x)]
  }

  // ---------- building the graph ----------

  function WithEdge(nodes: Nodes, x: Point, edge: Poly): Nodes {
    if x !in nodes then nodes[x := [edge]]
    else if edge in nodes[x] then nodes
    else nodes[x := nodes[x] + [edge]]
  }

  function WithPoly(nodes: Nodes, poly: Poly): Nodes
    requires poly.points != []
  {
    WithEdge(WithEdge(nodes, First(poly), poly), Last(poly), poly)
  }

  lemma WithEdgeMembers(nodes: Nodes, y: Point, edge: Poly)
    ensures WithEdge(nodes, y, edge).Keys == nodes.Keys + {y}
    ensures forall x, e :: x in WithEdge(nodes, y, edge) ==>
              (e in WithEdge(nodes, y, edge)[x] <==> (x in nodes && e in nodes[x]) || (e == edge && x == y))
  {
  }

  /** Adding a polyline keeps the graph well formed; it adds that edge at its two ends and nothing else. */
  lemma WithPolyWellFormed(nodes: Nodes, poly: Poly)
    requires poly.points != [] && WellFormed(nodes)
    ensures WellFormed(WithPoly(nodes, poly))
    ensures WithPoly(nodes, poly).Keys == nodes.Keys + {First(poly), Last(poly)}
    ensures forall x, e :: x in WithPoly(nodes, poly) ==>
              (e in WithPoly(nodes, poly)[x] <==>
               (x in nodes && e in nodes[x]) || (e == poly && Touches(poly, x)))
  {
    var after := WithPoly(nodes, poly);
    var first := WithEdge(nodes, First(poly), poly);
    WithEdgeMembers(nodes, First(poly), poly);
    WithEdgeMembers(first, Last(poly), poly);
    assert forall x, e :: x in after ==>
        (e in after[x] <==> (x in nodes && e in nodes[x]) || (e == poly && Touches(poly, x)));
    forall x, e | x in after && e in after[x]
      ensures EdgeFiled(after, x, e)
    {
      if x in nodes && e in nodes[x] {
        assert EdgeFiled(nodes, x, e);
      }
    }
  }

  // ---------- walks ----------

  /** One edge, travelled from src to dst. */
  datatype Hop = Hop(edge: Poly, src: Point, dst: Point)

  ghost predicate HopOk(nodes: Nodes, h: Hop) {
    && h.src in nodes && h.edge in nodes[h.src] && h.edge.points != []
    && ((First(h.edge) == h.src && Last(h.edge) == h.dst) || (Last(h.edge) == h.src && First(h.edge) == h.dst))
  }

  ghost predicate IsWalk(nodes: Nodes, a: Point, hops: seq<Hop>, b: Point) {
    if hops == [] then a == b
    else
      var h := hops[|hops| - 1];
      HopOk(nodes, h) && h.dst == b && IsWalk(nodes, a, hops[..|hops| - 1], h.src)
  }

  ghost predicate Reachable(nodes: Nodes, a: Point, b: Point) {
    exists hops :: IsWalk(nodes, a, hops, b)
  }

  function Cost(d: Distance, hops: seq<Hop>): real {
    if hops == [] then 0.0
    else Cost(d, hops[..|hops| - 1]) + Length(d, hops[|hops| - 1].edge.points)
  }

  /** The points of one hop, in travel order: the edge itself, or the edge reversed. */
  function Oriented(h: Hop): seq<Point> {
    if h.edge.points != [] && First(h.edge) == h.dst then Reversed(h.edge.points) else h.edge.points
  }

  /** The polyline of a walk: its edges in travel order, each junction kept once. */
  function Trace(hops: seq<Hop>): seq<Point> {
    if hops == [] then [] else Join(Trace(hops[..|hops| - 1]), Oriented(hops[|hops| - 1]))
  }

  /** The name of the path along a walk: for each edge a semicolon and its name, if it has one. */
  function TraceName(hops: seq<Hop>): string {
    if hops == [] then ""
    else TraceName(hops[..|hops| - 1]) + ";" + match hops[|hops| - 1].edge.name case None => "" case Some(s) => s
  }

  lemma OrientedEnds(d: Distance, nodes: Nodes, h: Hop)
    requires Metric(d) && HopOk(nodes, h)
    ensures var o := Oriented(h);
            o != [] && o[0] == h.src && o[|o| - 1] == h.dst && Length(d, o) == Length(d, h.edge.points)
  {
    LengthReversed(d, h.edge.points);
  }

  lemma JoinedEnds(d: Distance, p: seq<Point>, q: seq<Point>)
    requires Metric(d) && q != [] && (p != [] ==> p[|p| - 1] == q[0])
    ensures var r := Join(p, q);
            && r != [] && r[0] == (if p == [] then q[0] else p[0]) && r[|r| - 1] == q[|q| - 1]
            && Length(d, r) == Length(d, p) + Length(d, q)
  {
    if p != [] {
      LengthJoin(d, p, q);
    }
  }

  /** The polyline of a walk runs from its first to its last node, and is exactly as long as its edges together. */
  lemma {:induction false} TraceOfWalk(d: Distance, nodes: Nodes, a: Point, hops: seq<Hop>, b: Point)
    requires Metric(d) && IsWalk(nodes, a, hops, b)
    ensures Length(d, Trace(hops)) == Cost(d, hops)
    ensures hops != [] ==> var t := Trace(hops); t != [] && t[0] == a && t[|t| - 1] == b
    ensures hops == [] ==> Trace(hops) == []
    decreases |hops|
  {
    if hops != [] {
      var init, h := hops[..|hops| - 1], hops[|hops| - 1];
      TraceOfWalk(d, nodes, a, init, h.src);
      OrientedEnds(d, nodes, h);
      JoinedEnds(d, Trace(init), Oriented(h));
    }
  }

  lemma {:induction false} WalkConcat(nodes: Nodes, a: Point, p: seq<Hop>, b: Point, q: seq<Hop>, c: Point)
    requires IsWalk(nodes, a, p, b) && IsWalk(nodes, b, q, c)
    ensures IsWalk(nodes, a, p + q, c)
    decreases |q|
  {
    if q == [] {
      assert p + q == p;
    } else {
      var n := |q| - 1;
      WalkConcat(nodes, a, p, b, q[..n], q[n].src);
      assert (p + q)[..|p + q| - 1] == p + q[..n];
    }
  }

  lemma JoinAssociative(p: seq<Point>, q: seq<Point>, r: seq<Point>)
    ensures Join(Join(p, q), r) == Join(p, Join(q, r))
  {
    if p != [] && q != [] && r != [] {
      var t, s := q[1..], r[1..];
      calc {
        Join(Join(p, q), r);
        (p + t) + s;
        p + (t + s);
        { assert (q + s)[1..] == t + s; }
        Join(p, q + s);
      }
    }
  }

  lemma {:induction false} TraceConcat(p: seq<Hop>, q: seq<Hop>)
    ensures Trace(p + q) == Join(Trace(p), Trace(q))
    decreases |q|
  {
    if q == [] {
      assert p + q == p;
    } else {
      var n := |q| - 1;
      TraceConcat(p, q[..n]);
      JoinAssociative(Trace(p), Trace(q[..n]), Oriented(q[n]));
      assert (p + q)[..|p + q| - 1] == p + q[..n];
    }
  }

  lemma {:induction false} CostConcat(d: Distance, p: seq<Hop>, q: seq<Hop>)
    ensures Cost(d, p + q) == Cost(d, p) + Cost(d, q)
    decreases |q|
  {
    if q == [] {
      assert p + q == p;
    } else {
      CostConcat(d, p, q[..|q| - 1]);
      assert (p + q)[..|p + q| - 1] == p + q[..|q| - 1];
    }
  }
}
