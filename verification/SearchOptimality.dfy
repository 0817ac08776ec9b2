/**
 When the answer of the search is a shortest path.

 An improved open node keeps its old key in the heap, so a run may expand nodes in the wrong order
 and then the answer need not be shortest (see StaleKeys).  A run is called steady when every node
 it takes from the heap is a right one by the current scores; every steady run ends with a shortest
 path, and a run that never improves an open node is steady.
 */
module SearchOptimality {
  import opened Wrappers
  import opened Polylines
  import opened Walks
  import opened Heaps
  import opened Searches
  import opened SearchProofs

  function Estimate(p: Problem, s: State, y: Point): real
    requires y in s.g
  {
    s.g[y] + p.d(y, p.goal)
  }

  /** The top of the heap is least by the scores as they are now, whatever keys the heap has. */
  ghost predicate TopIsLeast(p: Problem, s: State)
    requires Core(p, s) && s.heap != []
  {
    s.heap[0].node in s.g && forall y :: y in s.open ==> Estimate(p, s, s.heap[0].node) <= Estimate(p, s, y)
  }

  ghost predicate Steady(p: Problem, s: State)
    requires Inv(p, s)
    decreases p.nodes.Keys - s.closed
  {
    MirrorsEmpty(s.heap, s.open);
    s.open != {} ==> TopIsLeast(p, s) && (s.heap[0].node != p.goal ==> Steady(p, Step(p, s)))
  }

  /** The whole run of the search is steady. */
  ghost predicate RunIsSteady(p: Problem)
    requires ProblemOk(p)
  {
    InitInv(p);
    Steady(p, Init(p))
  }

  ghost predicate NoShorterWalk(p: Problem, cost: real, y: Point) {
    forall hops :: IsWalk(p.nodes, p.start, hops, y) ==> cost <= Cost(p.d, hops)
  }

  ghost predicate ClosedAreFinal(p: Problem, s: State) {
    forall c :: c in s.closed ==> c in s.g && NoShorterWalk(p, s.g[c], c)
  }

  /** Every walk to an unclosed node z passes an open node whose estimate it cannot beat. */
  lemma {:induction false} WalkPassesOpen(p: Problem, s: State, hops: seq<Hop>, z: Point) returns (y: Point)
    requires Inv(p, s) && ClosedAreFinal(p, s)
    requires IsWalk(p.nodes, p.start, hops, z) && z !in s.closed
    ensures y in s.open && Estimate(p, s, y) <= Cost(p.d, hops) + p.d(z, p.goal)
    decreases |hops|
  {
    if hops == [] {
      y := z;
    } else {
      var init, h := hops[..|hops| - 1], hops[|hops| - 1];
      OtherEndOfHop(p, h);
      if h.src in s.closed {
        assert Expanded(p, s, h.src, p.nodes[h.src]);
        assert Seen(p, s, h.src, h.edge);
        assert NoShorterWalk(p, s.g[h.src], h.src);
        y := z;
      } else {
        y := WalkPassesOpen(p, s, init, h.src);
        HopAtLeastSpan(p, h);
        assert TriangleAt(p.d, h.src, z, p.goal);
      }
    }
  }

  lemma HopAtLeastSpan(p: Problem, h: Hop)
    requires Metric(p.d) && HopOk(p.nodes, h)
    ensures p.d(h.src, h.dst) <= Length(p.d, h.edge.points)
  {
    LengthAtLeastSpan(p.d, h.edge.points);
  }

  /** A node taken in the right order has its final score. */
  lemma TopIsFinal(p: Problem, s: State)
    requires Inv(p, s) && ClosedAreFinal(p, s) && s.heap != [] && TopIsLeast(p, s)
    ensures NoShorterWalk(p, s.g[s.heap[0].node], s.heap[0].node)
  {
    var x := s.heap[0].node;
    forall hops | IsWalk(p.nodes, p.start, hops, x)
      ensures s.g[x] <= Cost(p.d, hops)
    {
      var y := WalkPassesOpen(p, s, hops, x);
    }
  }

  lemma {:induction false} RelaxAllKeepsClosed(p: Problem, x: Point, edges: seq<Poly>, s: State)
    requires (forall e :: e in edges ==> e.points != []) && x in s.g && s.open <= s.g.Keys
    ensures var r := RelaxAll(p, x, edges, s);
            forall c :: c in s.closed && c in s.g ==> c in r.g && r.g[c] == s.g[c]
    decreases |edges|
  {
    if edges != [] {
      RelaxAllKeepsClosed(p, x, edges[..|edges| - 1], s);
    }
  }

  /** A closed node's score never changes again. */
  lemma StepKeepsClosed(p: Problem, s: State)
    requires Inv(p, s) && s.open != {} && s.heap != [] && s.heap[0].node != p.goal
    ensures forall c :: c in s.closed + {s.heap[0].node} ==> c in s.g && c in Step(p, s).g && Step(p, s).g[c] == s.g[c]
  {
    var x := s.heap[0].node;
    EdgesHavePoints(p, x);
    RelaxAllKeepsClosed(p, x, p.nodes[x], Pop(s));
  }

  lemma {:induction false} SteadyIsShortest(p: Problem, s: State)
    requires Inv(p, s) && ClosedAreFinal(p, s) && Steady(p, s)
    ensures var r := Search(p, s);
            r.Some? ==> p.goal in r.value.g && NoShorterWalk(p, r.value.g[p.goal], p.goal)
    decreases p.nodes.Keys - s.closed
  {
    MirrorsEmpty(s.heap, s.open);
    if s.open != {} {
      TopIsFinal(p, s);
      if s.heap[0].node != p.goal {
        StepKeepsClosed(p, s);
        var s' := Step(p, s);
        forall c | c in s'.closed
          ensures c in s'.g && NoShorterWalk(p, s'.g[c], c)
        {
        }
        SteadyIsShortest(p, s');
      }
    }
  }

  /** A steady search returns a path no longer than any walk from start to goal. */
  lemma SteadyAnswerIsShortest(p: Problem)
    requires ProblemOk(p)
    requires RunIsSteady(p)
    ensures Answer(p).Some? ==>
              forall hops :: IsWalk(p.nodes, p.start, hops, p.goal) ==>
                Length(p.d, Answer(p).value.points) <= Cost(p.d, hops)
  {
    InitInv(p);
    SteadyIsShortest(p, Init(p));
    if Answer(p).Some? {
      FoundIsWalk(p, Search(p, Init(p)).value);
    }
  }

  // ---------- a run that never improves an open node is steady ----------

  /** Some edge of edges, when its turn comes, improves the score of a node that is already open. */
  ghost predicate ImprovesOpen(p: Problem, x: Point, edges: seq<Poly>, s: State)
    requires (forall e :: e in edges ==> e.points != []) && x in s.g && s.open <= s.g.Keys
  {
    edges != [] &&
    var init, edge := edges[..|edges| - 1], edges[|edges| - 1];
    ImprovesOpen(p, x, init, s) ||
    var m := RelaxAll(p, x, init, s);
    var y := OtherEnd(edge, x);
    y in m.open && y !in m.closed && m.g[x] + Length(p.d, edge.points) < m.g[y]
  }

  ghost predicate NeverImproves(p: Problem, s: State)
    requires Inv(p, s)
    decreases p.nodes.Keys - s.closed
  {
    MirrorsEmpty(s.heap, s.open);
    s.open != {} && s.heap[0].node != p.goal ==>
      var x := s.heap[0].node;
      PopExpanding(p, s);
      EdgesHavePoints(p, x);
      !ImprovesOpen(p, x, p.nodes[x], Pop(s)) && NeverImproves(p, Step(p, s))
  }

  /** In the whole run of the search, no open node is improved. */
  ghost predicate RunNeverImproves(p: Problem)
    requires ProblemOk(p)
  {
    InitInv(p);
    NeverImproves(p, Init(p))
  }

  /** Every key in the heap is the estimate by the current score. */
  ghost predicate KeysCurrent(p: Problem, s: State) {
    forall it :: it in s.heap ==> it.node in s.g && it.f == Estimate(p, s, it.node)
  }

  lemma RelaxKeepsKeys(p: Problem, x: Point, edge: Poly, s: State)
    requires Mirrors(s.heap, s.open) && KeysCurrent(p, s) && s.open <= s.g.Keys
    requires edge.points != [] && x in s.g
    requires var y := OtherEnd(edge, x); y in s.open && y !in s.closed ==> s.g[y] <= s.g[x] + Length(p.d, edge.points)
    ensures KeysCurrent(p, Relax(p, x, edge, s))
  {
    var y := OtherEnd(edge, x);
    if y !in s.closed && y !in s.open {
      var s' := Relax(p, x, edge, s);
      var item := Item(s.g[x] + Length(p.d, edge.points) + p.d(y, p.goal), y);
      forall it | it in s'.heap
        ensures it.node in s'.g && it.f == Estimate(p, s', it.node)
      {
        PushMembers(s.heap, item, it);
        assert it == item || it.node in s.open;
      }
    }
  }

  lemma {:induction false} RelaxAllKeepsKeys(p: Problem, x: Point, edges: seq<Poly>, s: State)
    requires Expanding(p, s, x, []) && KeysCurrent(p, s)
    requires forall e :: e in edges ==> e in p.nodes[x]
    requires forall e :: e in edges ==> e.points != []
    requires !ImprovesOpen(p, x, edges, s)
    ensures KeysCurrent(p, RelaxAll(p, x, edges, s))
    decreases |edges|
  {
    if edges != [] {
      var init, edge := edges[..|edges| - 1], edges[|edges| - 1];
      RelaxAllKeepsKeys(p, x, init, s);
      RelaxAllExpanding(p, x, init, s);
      RelaxKeepsKeys(p, x, edge, RelaxAll(p, x, init, s));
    }
  }

  lemma OneOpenNode(heap: seq<Item>, y: Point)
    requires Mirrors(heap, {y})
    ensures |heap| == 1 && heap[0].node == y
  {
    assert Holds(heap, y);
    assert heap[0].node == y && heap[|heap| - 1].node == y;
  }

  lemma {:induction false} NeverImprovesIsSteady(p: Problem, s: State)
    requires Inv(p, s) && NeverImproves(p, s) && (KeysCurrent(p, s) || s.closed == {})
    ensures Steady(p, s)
    decreases p.nodes.Keys - s.closed
  {
    MirrorsEmpty(s.heap, s.open);
    if s.open != {} {
      assert TopIsLeast(p, s) by {
        forall y | y in s.open
          ensures Estimate(p, s, s.heap[0].node) <= Estimate(p, s, y)
        {
          assert Holds(s.heap, y);
          var i :| 0 <= i < |s.heap| && s.heap[i].node == y;
          assert s.heap[i] in s.heap && s.heap[0] in s.heap;
        }
      }
      var x := s.heap[0].node;
      if x != p.goal {
        PopExpanding(p, s);
        EdgesHavePoints(p, x);
        assert KeysCurrent(p, Pop(s)) by {
          if s.closed == {} {
            OneOpenNode(s.heap, p.start);
          }
        }
        RelaxAllKeepsKeys(p, x, p.nodes[x], Pop(s));
        NeverImprovesIsSteady(p, Step(p, s));
      }
    }
  }

  /**
   If no expansion of the run improves a node that is already open, the path returned is no longer
   than any walk from start to goal.
   */
  lemma AnswerIsShortest(p: Problem)
    requires ProblemOk(p)
    requires RunNeverImproves(p)
    ensures Answer(p).Some? ==>
              forall hops :: IsWalk(p.nodes, p.start, hops, p.goal) ==>
                Length(p.d, Answer(p).value.points) <= Cost(p.d, hops)
  {
    InitInv(p);
    NeverImprovesIsSteady(p, Init(p));
    SteadyAnswerIsShortest(p);
  }
}
