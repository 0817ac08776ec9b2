/**
 The A* search of PolyGraph.shortest_path as a state machine: its states, its steps, and the
 recursion that runs it.  What its runs guarantee is proved in SearchProofs and SearchOptimality.
 */
module Searches {
  import opened Wrappers
  import opened Polylines
  import opened Walks
  import opened Heaps

  /** How a node was last reached: from prev, over edge. */
  datatype Back = Back(prev: Point, edge: Poly)

  datatype State = State(
    heap: seq<Item>,
    open: set<Point>,
    closed: set<Point>,
    g: map<Point, real>,
    cameFrom: map<Point, Back>)

  /** The fixed data of one search. */
  datatype Problem = Problem(nodes: Nodes, d: Distance, start: Point, goal: Point)

  ghost predicate ProblemOk(p: Problem) {
    WellFormed(p.nodes) && Metric(p.d) && p.start in p.nodes && p.goal in p.nodes
  }

  function Init(p: Problem): State {
    State([Item(0.0, p.start)], {p.start}, {}, map[p.start := 0.0], map[])
  }

  /** Looks along one edge of x, the node being expanded. */
  function Relax(p: Problem, x: Point, edge: Poly, s: State): State
    requires edge.points != [] && x in s.g && s.open <= s.g.Keys
  {
    var y := OtherEnd(edge, x);
    if y in s.closed then s
    else
      var tentative := s.g[x] + Length(p.d, edge.points);
      if y !in s.open then
        s.(open := s.open + {y},
           heap := Push(s.heap, Item(tentative + p.d(y, p.goal), y)),
           cameFrom := s.cameFrom[y := Back(x, edge)],
           g := s.g[y := tentative])
      else if tentative < s.g[y] then
        s.(cameFrom := s.cameFrom[y := Back(x, edge)], g := s.g[y := tentative])
      else s
  }

  function RelaxAll(p: Problem, x: Point, edges: seq<Poly>, s: State): (r: State)
    requires (forall e :: e in edges ==> e.points != []) && x in s.g && s.open <= s.g.Keys
    ensures x in r.g && r.open <= r.g.Keys && r.closed == s.closed
  {
    if edges == [] then s
    else Relax(p, x, edges[|edges| - 1], RelaxAll(p, x, edges[..|edges| - 1], s))
  }

  /** Moves the top of the heap from the open to the closed nodes. */
  function Pop(s: State): State
    requires s.heap != []
  {
    s.(heap := s.heap[1..], open := s.open - {s.heap[0].node}, closed := s.closed + {s.heap[0].node})
  }

  // ---------- the invariant ----------

  ghost predicate BackOk(p: Problem, s: State, y: Point)
    requires y in s.cameFrom
  {
    var b := s.cameFrom[y];
    && b.prev in s.closed && b.prev != y && b.prev in s.g && y in s.g
    && HopOk(p.nodes, Hop(b.edge, b.prev, y))
    && s.g[y] == s.g[b.prev] + Length(p.d, b.edge.points)
  }

  /** What holds between any two edges looked at. */
  ghost predicate Core(p: Problem, s: State) {
    && Mirrors(s.heap, s.open)
    && s.open !! s.closed
    && s.g.Keys == s.open + s.closed
    && s.g.Keys <= p.nodes.Keys
    && p.start in s.g && s.g[p.start] == 0.0
    && s.cameFrom.Keys == s.g.Keys - {p.start}
    && p.goal !in s.closed
    && (s.closed == {} ==> s.open == {p.start})
    && (s.closed != {} ==> p.start in s.closed)
    && (forall y :: y in s.cameFrom ==> BackOk(p, s, y))
  }

  /** The far end of edge e of x has been scored, and while it is open no worse than by way of e. */
  ghost predicate Seen(p: Problem, s: State, x: Point, e: Poly) {
    && e.points != [] && x in s.g && OtherEnd(e, x) in s.g
    && (OtherEnd(e, x) in s.open ==> s.g[OtherEnd(e, x)] <= s.g[x] + Length(p.d, e.points))
  }

  ghost predicate Expanded(p: Problem, s: State, x: Point, edges: seq<Poly>) {
    forall e :: e in edges ==> Seen(p, s, x, e)
  }

  /** What holds each time the loop tests whether a node is open. */
  ghost predicate Inv(p: Problem, s: State) {
    && ProblemOk(p) && Core(p, s)
    && (forall x :: x in s.closed ==> x in p.nodes && Expanded(p, s, x, p.nodes[x]))
  }

  /** What holds while the edges of x are looked at; those in done have been. */
  ghost predicate Expanding(p: Problem, s: State, x: Point, done: seq<Poly>) {
    && ProblemOk(p) && Core(p, s) && x in s.closed && x in p.nodes
    && (forall c :: c in s.closed && c != x ==> c in p.nodes && Expanded(p, s, c, p.nodes[c]))
    && Expanded(p, s, x, done)
  }

  lemma InitInv(p: Problem)
    requires ProblemOk(p)
    ensures Inv(p, Init(p))
  {
    assert Init(p).heap[0].node == p.start;
  }

  lemma PopExpanding(p: Problem, s: State)
    requires Inv(p, s) && s.heap != [] && s.heap[0].node != p.goal
    ensures s.heap[0].node in s.open && s.heap[0].node in p.nodes
    ensures Expanding(p, Pop(s), s.heap[0].node, [])
  {
    var x := s.heap[0].node;
    var s' := Pop(s);
    PopMirrors(s.heap, s.open);
    assert s'.g.Keys == s'.open + s'.closed;
    forall y | y in s'.cameFrom
      ensures BackOk(p, s', y)
    {
      assert BackOk(p, s, y);
    }
    forall c | c in s'.closed && c != x
      ensures c in p.nodes && Expanded(p, s', c, p.nodes[c])
    {
      forall e | e in p.nodes[c]
        ensures Seen(p, s', c, e)
      {
        assert Seen(p, s, c, e);
      }
    }
  }

  lemma EdgeOfNode(p: Problem, x: Point, edge: Poly)
    requires ProblemOk(p) && x in p.nodes && edge in p.nodes[x]
    ensures edge.points != [] && OtherEnd(edge, x) in p.nodes && HopOk(p.nodes, Hop(edge, x, OtherEnd(edge, x)))
  {
    assert EdgeFiled(p.nodes, x, edge);
  }

  lemma RelaxCore(p: Problem, x: Point, edge: Poly, s: State)
    requires Core(p, s) && x in s.closed
    requires edge.points != [] && OtherEnd(edge, x) in p.nodes && HopOk(p.nodes, Hop(edge, x, OtherEnd(edge, x)))
    ensures Core(p, Relax(p, x, edge, s))
    ensures Seen(p, Relax(p, x, edge, s), x, edge)
  {
    var y := OtherEnd(edge, x);
    if y !in s.closed && y !in s.open {
      RelaxNew(p, x, edge, s);
    } else if y in s.open {
      RelaxOpen(p, x, edge, s);
    }
    RelaxSees(p, x, edge, s);
  }

  lemma RelaxSees(p: Problem, x: Point, edge: Poly, s: State)
    requires x in s.closed && edge.points != [] && s.open !! s.closed && s.g.Keys == s.open + s.closed
    ensures Seen(p, Relax(p, x, edge, s), x, edge)
  {
  }

  /** An unseen node is opened. */
  lemma RelaxNew(p: Problem, x: Point, edge: Poly, s: State)
    requires Core(p, s) && x in s.closed && edge.points != []
    requires var y := OtherEnd(edge, x); y !in s.closed && y !in s.open && y in p.nodes && HopOk(p.nodes, Hop(edge, x, y))
    ensures Core(p, Relax(p, x, edge, s))
  {
    var y := OtherEnd(edge, x);
    var t := s.g[x] + Length(p.d, edge.points);
    var s' := Relax(p, x, edge, s);
    RelaxedMirrors(p, x, edge, s);
    RescoreBacks(p, s, s', x, edge, y, t);
    OpenedKeys(p, s, s', y);
  }

  lemma RelaxedMirrors(p: Problem, x: Point, edge: Poly, s: State)
    requires Mirrors(s.heap, s.open) && edge.points != [] && x in s.g && s.open <= s.g.Keys
    requires var y := OtherEnd(edge, x); y !in s.closed && y !in s.open
    ensures var s' := Relax(p, x, edge, s); Mirrors(s'.heap, s'.open)
  {
    var y := OtherEnd(edge, x);
    PushMirrors(s.heap, s.open, Item(s.g[x] + Length(p.d, edge.points) + p.d(y, p.goal), y));
  }

  lemma OpenedKeys(p: Problem, s: State, s': State, y: Point)
    requires s.open !! s.closed && s.g.Keys == s.open + s.closed && s.g.Keys <= p.nodes.Keys
    requires s.cameFrom.Keys == s.g.Keys - {p.start} && p.start in s.g && y !in s.g && y in p.nodes
    requires s'.open == s.open + {y} && s'.closed == s.closed
    requires s'.g.Keys == s.g.Keys + {y} && s'.cameFrom.Keys == s.cameFrom.Keys + {y}
    ensures s'.open !! s'.closed && s'.g.Keys == s'.open + s'.closed && s'.g.Keys <= p.nodes.Keys
    ensures s'.cameFrom.Keys == s'.g.Keys - {p.start}
  {
  }

  /** An open node gets a better score; its key stays. */
  lemma RelaxOpen(p: Problem, x: Point, edge: Poly, s: State)
    requires Core(p, s) && x in s.closed && edge.points != []
    requires var y := OtherEnd(edge, x); y in s.open && HopOk(p.nodes, Hop(edge, x, y))
    ensures Core(p, Relax(p, x, edge, s))
  {
    var y := OtherEnd(edge, x);
    var t := s.g[x] + Length(p.d, edge.points);
    if t < s.g[y] {
      var s' := Relax(p, x, edge, s);
      assert s'.g.Keys == s'.open + s'.closed;
      RescoreBacks(p, s, s', x, edge, y, t);
    }
  }

  /** Giving an unclosed node y a score over an edge from a closed one leaves every back link right. */
  lemma RescoreBacks(p: Problem, s: State, s': State, x: Point, edge: Poly, y: Point, t: real)
    requires s.g.Keys == s.open + s.closed && x in s.closed && y !in s.closed
    requires forall z :: z in s.cameFrom ==> BackOk(p, s, z)
    requires HopOk(p.nodes, Hop(edge, x, y)) && t == s.g[x] + Length(p.d, edge.points)
    requires s'.closed == s.closed && s'.g == s.g[y := t] && s'.cameFrom == s.cameFrom[y := Back(x, edge)]
    ensures forall z :: z in s'.cameFrom ==> BackOk(p, s', z)
  {
    forall z | z in s'.cameFrom
      ensures BackOk(p, s', z)
    {
      if z != y {
        assert BackOk(p, s, z);
      }
    }
  }

  lemma RelaxKeepsSeen(p: Problem, x: Point, edge: Poly, s: State, c: Point, e: Poly)
    requires Core(p, s) && x in s.closed && edge.points != []
    requires c in s.closed && Seen(p, s, c, e)
    ensures Seen(p, Relax(p, x, edge, s), c, e)
  {
  }

  lemma {:induction false} RelaxAllExpanding(p: Problem, x: Point, edges: seq<Poly>, s: State)
    requires Expanding(p, s, x, [])
    requires forall e :: e in edges ==> e in p.nodes[x]
    requires forall e :: e in edges ==> e.points != []
    ensures Expanding(p, RelaxAll(p, x, edges, s), x, edges)
    decreases |edges|
  {
    if edges != [] {
      var init, edge := edges[..|edges| - 1], edges[|edges| - 1];
      assert edges == init + [edge];
      RelaxAllExpanding(p, x, init, s);
      var m := RelaxAll(p, x, init, s);
      var r := Relax(p, x, edge, m);
      EdgeOfNode(p, x, edge);
      RelaxCore(p, x, edge, m);
      forall e | e in edges
        ensures Seen(p, r, x, e)
      {
        if e in init {
          RelaxKeepsSeen(p, x, edge, m, x, e);
        }
      }
      forall c | c in r.closed && c != x
        ensures c in p.nodes && Expanded(p, r, c, p.nodes[c])
      {
        forall e | e in p.nodes[c]
          ensures Seen(p, r, c, e)
        {
          RelaxKeepsSeen(p, x, edge, m, c, e);
        }
      }
    }
  }

  lemma EdgesHavePoints(p: Problem, x: Point)
    requires ProblemOk(p) && x in p.nodes
    ensures forall e :: e in p.nodes[x] ==> e.points != []
  {
    forall e | e in p.nodes[x]
      ensures e.points != []
    {
      assert EdgeFiled(p.nodes, x, e);
    }
  }

  /** One turn of the loop: close the top of the heap and look along all its edges. */
  function Step(p: Problem, s: State): (s': State)
    requires Inv(p, s) && s.open != {} && s.heap != [] && s.heap[0].node != p.goal
    ensures Inv(p, s')
    ensures s'.closed == s.closed + {s.heap[0].node} && s.heap[0].node !in s.closed
    ensures s.heap[0].node in p.nodes
  {
    PopExpanding(p, s);
    var x := s.heap[0].node;
    EdgesHavePoints(p, x);
    RelaxAllExpanding(p, x, p.nodes[x], Pop(s));
    RelaxAll(p, x, p.nodes[x], Pop(s))
  }

  /** Runs the loop from s: the state in which goal tops the heap, or None once nothing is open. */
  function Search(p: Problem, s: State): (r: Option<State>)
    requires Inv(p, s)
    ensures r.Some? ==> Inv(p, r.value) && r.value.heap != [] && r.value.heap[0].node == p.goal
    decreases p.nodes.Keys - s.closed
  {
    MirrorsEmpty(s.heap, s.open);
    if s.open == {} then None
    else if s.heap[0].node == p.goal then Some(s)
    else
      Search(p, Step(p, s))
  }
}
