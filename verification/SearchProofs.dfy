/**
 What every run of the search returns: a real walk of exactly the recorded cost, and None exactly
 when goal cannot be reached.
 */
module SearchProofs {
  import opened Wrappers
  import opened Polylines
  import opened Walks
  import opened Heaps
  import opened Searches

  // ---------- reconstructing the path ----------

  /** The scored nodes that are cheaper than y; it shrinks along the back links. */
  ghost function Cheaper(s: State, y: Point): set<Point>
    requires y in s.g
  {
    set z | z in s.g && s.g[z] < s.g[y]
  }

  /** A back link leads to a strictly cheaper node, so following them ends. */
  lemma BackIsCheaper(p: Problem, s: State, y: Point)
    requires Metric(p.d) && Core(p, s) && y in s.cameFrom
    ensures BackOk(p, s, y) && s.cameFrom[y].prev in s.g
    ensures s.g[s.cameFrom[y].prev] < s.g[y]
    ensures Cheaper(s, s.cameFrom[y].prev) < Cheaper(s, y)
  {
    var b := s.cameFrom[y];
    assert BackOk(p, s, y);
    LengthAtLeastSpan(p.d, b.edge.points);
    assert p.d(b.prev, y) > 0.0;
    assert b.prev in Cheaper(s, y) && b.prev !in Cheaper(s, b.prev);
  }

  /** The hops recorded from start to y. */
  ghost function Hops(p: Problem, s: State, y: Point): seq<Hop>
    requires Metric(p.d) && Core(p, s) && y in s.g
    decreases Cheaper(s, y)
  {
    if y !in s.cameFrom then []
    else
      BackIsCheaper(p, s, y);
      Hops(p, s, s.cameFrom[y].prev) + [Hop(s.cameFrom[y].edge, s.cameFrom[y].prev, y)]
  }

  /** The recursion of _reconstruct_path. */
  function Reconstruct(p: Problem, s: State, y: Point): Poly
    requires Metric(p.d) && Core(p, s) && y in s.g
    decreases Cheaper(s, y)
  {
    if y in s.cameFrom then
      BackIsCheaper(p, s, y);
      var b := s.cameFrom[y];
      var edge := if First(b.edge) == y then Poly(Reversed(b.edge.points), b.edge.name) else b.edge;
      Merged(p.d, [Reconstruct(p, s, b.prev), edge], 0.0)
    else
      Poly([], Some(""))
  }

  lemma {:induction false} HopsAreWalk(p: Problem, s: State, y: Point)
    requires Metric(p.d) && Core(p, s) && y in s.g
    ensures IsWalk(p.nodes, p.start, Hops(p, s, y), y)
    ensures Cost(p.d, Hops(p, s, y)) == s.g[y]
    ensures Hops(p, s, y) == [] <==> y == p.start
    decreases Cheaper(s, y)
  {
    if y in s.cameFrom {
      BackIsCheaper(p, s, y);
      var b := s.cameFrom[y];
      HopsAreWalk(p, s, b.prev);
      var hops := Hops(p, s, y);
      assert hops[..|hops| - 1] == Hops(p, s, b.prev);
    }
  }

  lemma {:induction false} ReconstructIsTrace(p: Problem, s: State, y: Point)
    requires Metric(p.d) && Core(p, s) && y in s.g
    ensures Reconstruct(p, s, y).points == Trace(Hops(p, s, y))
    decreases Cheaper(s, y)
  {
    if y in s.cameFrom {
      BackIsCheaper(p, s, y);
      var b := s.cameFrom[y];
      var hop := Hop(b.edge, b.prev, y);
      var edge := if First(b.edge) == y then Poly(Reversed(b.edge.points), b.edge.name) else b.edge;
      ReconstructIsTrace(p, s, b.prev);
      HopsAreWalk(p, s, b.prev);
      TraceOfWalk(p.d, p.nodes, p.start, Hops(p, s, b.prev), b.prev);
      OrientedEnds(p.d, p.nodes, hop);
      MergedIsJoin(p.d, Reconstruct(p, s, b.prev), edge);
      var hops := Hops(p, s, y);
      assert hops[..|hops| - 1] == Hops(p, s, b.prev);
    }
  }

  /** The path is named after the edges of the walk, in order. */
  lemma {:induction false} ReconstructName(p: Problem, s: State, y: Point)
    requires Metric(p.d) && Core(p, s) && y in s.g
    ensures Reconstruct(p, s, y).name == Some(TraceName(Hops(p, s, y)))
    decreases Cheaper(s, y)
  {
    if y in s.cameFrom {
      BackIsCheaper(p, s, y);
      var b := s.cameFrom[y];
      var edge := if First(b.edge) == y then Poly(Reversed(b.edge.points), b.edge.name) else b.edge;
      ReconstructName(p, s, b.prev);
      NamesInOrder([Reconstruct(p, s, b.prev)], [edge]);
      assert [Reconstruct(p, s, b.prev)] + [edge] == [Reconstruct(p, s, b.prev), edge];
      var hops := Hops(p, s, y);
      assert hops[..|hops| - 1] == Hops(p, s, b.prev);
    }
  }

  // ---------- completeness ----------

  /** Once nothing is open, the closed nodes are all that can be reached, and goal is not among them. */
  lemma {:induction false} ClosedUnderWalks(p: Problem, s: State, hops: seq<Hop>, y: Point)
    requires Inv(p, s) && s.open == {} && IsWalk(p.nodes, p.start, hops, y)
    ensures y in s.closed
    decreases |hops|
  {
    if hops != [] {
      var h := hops[|hops| - 1];
      ClosedUnderWalks(p, s, hops[..|hops| - 1], h.src);
      assert Expanded(p, s, h.src, p.nodes[h.src]);
      assert Seen(p, s, h.src, h.edge);
      OtherEndOfHop(p, h);
    }
  }

  lemma OtherEndOfHop(p: Problem, h: Hop)
    requires HopOk(p.nodes, h)
    ensures OtherEnd(h.edge, h.src) == h.dst
  {
  }

  /** The whole answer of shortest_path, as a function. */
  function Answer(p: Problem): Option<Poly>
    requires ProblemOk(p)
  {
    InitInv(p);
    match Search(p, Init(p))
    case None => None
    case Some(s) => Some(Reconstruct(p, s, p.goal))
  }

  ghost predicate IsTraceOfWalk(p: Problem, path: Poly, hops: seq<Hop>) {
    IsWalk(p.nodes, p.start, hops, p.goal) && path.points == Trace(hops) && Length(p.d, path.points) == Cost(p.d, hops)
    && path.name == Some(TraceName(hops))
  }

  /** The final state of a successful search carries the walk it reports. */
  lemma FoundIsWalk(p: Problem, s: State)
    requires Inv(p, s) && s.heap != [] && s.heap[0].node == p.goal
    ensures p.goal in s.g
    ensures IsTraceOfWalk(p, Reconstruct(p, s, p.goal), Hops(p, s, p.goal))
    ensures Length(p.d, Reconstruct(p, s, p.goal).points) == s.g[p.goal]
    ensures p.start != p.goal ==>
              var pts := Reconstruct(p, s, p.goal).points;
              pts != [] && pts[0] == p.start && pts[|pts| - 1] == p.goal
  {
    HopsAreWalk(p, s, p.goal);
    ReconstructIsTrace(p, s, p.goal);
    ReconstructName(p, s, p.goal);
    TraceOfWalk(p.d, p.nodes, p.start, Hops(p, s, p.goal), p.goal);
  }

  lemma {:induction false} SearchComplete(p: Problem, s: State)
    requires Inv(p, s)
    ensures Search(p, s).None? ==> !Reachable(p.nodes, p.start, p.goal)
    decreases p.nodes.Keys - s.closed
  {
    MirrorsEmpty(s.heap, s.open);
    if s.open == {} {
      forall hops | IsWalk(p.nodes, p.start, hops, p.goal)
        ensures false
      {
        ClosedUnderWalks(p, s, hops, p.goal);
      }
    } else if s.heap[0].node != p.goal {
      SearchComplete(p, Step(p, s));
    }
  }

  /**
   The search answers None exactly when no walk leads from start to goal; otherwise its answer is
   the polyline of a walk from start to goal, as long as that walk's edges together.
   */
  lemma AnswerSoundAndComplete(p: Problem)
    requires ProblemOk(p)
    ensures Answer(p).None? <==> !Reachable(p.nodes, p.start, p.goal)
    ensures Answer(p).Some? ==> exists hops :: IsTraceOfWalk(p, Answer(p).value, hops)
    ensures Answer(p).Some? && p.start != p.goal ==>
              var pts := Answer(p).value.points;
              pts != [] && pts[0] == p.start && pts[|pts| - 1] == p.goal
    ensures p.start == p.goal ==> Answer(p) == Some(Poly([], Some("")))
  {
    InitInv(p);
    SearchComplete(p, Init(p));
    if Answer(p).Some? {
      var s := Search(p, Init(p)).value;
      FoundIsWalk(p, s);
    }
  }

  // ---------- each node is expanded at most once ----------

  /** The nodes the search expands from s on, in order. */
  function Expansions(p: Problem, s: State): seq<Point>
    requires Inv(p, s)
    decreases p.nodes.Keys - s.closed
  {
    MirrorsEmpty(s.heap, s.open);
    if s.open == {} || s.heap[0].node == p.goal then []
    else [s.heap[0].node] + Expansions(p, Step(p, s))
  }

  /** The nodes of xs are distinct nodes of the graph, none of them closed yet, none of them the goal. */
  ghost predicate AllNew(p: Problem, closed: set<Point>, xs: seq<Point>) {
    && (forall i :: 0 <= i < |xs| ==> xs[i] in p.nodes && xs[i] !in closed && xs[i] != p.goal)
    && (forall i, j :: 0 <= i < j < |xs| ==> xs[i] != xs[j])
  }

  lemma AllNewCons(p: Problem, closed: set<Point>, x: Point, xs: seq<Point>)
    requires x in p.nodes && x !in closed && x != p.goal && AllNew(p, closed + {x}, xs)
    ensures AllNew(p, closed, [x] + xs)
  {
  }

  /** No node is expanded twice, none that was closed before, and never the goal. */
  lemma {:induction false} ExpandedOnce(p: Problem, s: State)
    requires Inv(p, s)
    ensures AllNew(p, s.closed, Expansions(p, s))
    decreases p.nodes.Keys - s.closed
  {
    MirrorsEmpty(s.heap, s.open);
    if s.open != {} && s.heap[0].node != p.goal {
      var s' := Step(p, s);
      ExpandedOnce(p, s');
      AllNewCons(p, s.closed, s.heap[0].node, Expansions(p, s'));
    }
  }
}
