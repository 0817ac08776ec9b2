/**
 A search that does not find a shortest path: four nodes on a line, with two detours.

   S --1-- M --1-- Y --1-- G      and the detours  S --10-- Y,  S --8-- G

 Y is opened over the long detour and improved through M, but its heap key stays that of the detour,
 so G is taken from the heap first, at cost 8 instead of 3.
 */
module StaleKeys {
  import opened Wrappers
  import opened Polylines
  import opened Walks
  import opened Heaps
  import opened Searches
  import opened SearchProofs
  import opened SearchOptimality

  function Abs(r: real): real {
    if r < 0.0 then -r else r
  }

  function Taxi(a: Point, b: Point): real {
    Abs(a.x - b.x) + Abs(a.y - b.y) + Abs(a.z - b.z)
  }

  const TAXI: Distance := (a, b) => Taxi(a, b)

  lemma TaxiIsMetric()
    ensures Metric(TAXI)
  {
    forall a, b, c
      ensures TriangleAt(TAXI, a, b, c)
    {
    }
  }

  function At(x: real): Point {
    Point(x, 0.0, 0.0)
  }

  const S := At(0.0)
  const M := At(1.0)
  const Y := At(2.0)
  const G := At(3.0)

  const SM := Poly([S, M], None)
  const MY := Poly([M, Y], None)
  const YG := Poly([Y, G], None)
  const SY := Poly([S, At(6.0), Y], None)
  const SG := Poly([S, At(5.5), G], None)

  const NODES: Nodes := map[S := [SY, SM, SG], M := [SM, MY], Y := [SY, MY, YG], G := [SG, YG]]

  const PROBLEM := Problem(NODES, TAXI, S, G)

  lemma Length2(a: Point, b: Point)
    ensures Length(TAXI, [a, b]) == Taxi(a, b)
  {
    assert [a, b][..1] == [a];
  }

  lemma Length3(a: Point, b: Point, c: Point)
    ensures Length(TAXI, [a, b, c]) == Taxi(a, b) + Taxi(b, c)
  {
    assert [a, b, c][..2] == [a, b];
    Length2(a, b);
  }

  lemma Lengths()
    ensures Length(TAXI, SM.points) == 1.0 && Length(TAXI, MY.points) == 1.0 && Length(TAXI, YG.points) == 1.0
    ensures Length(TAXI, SY.points) == 10.0 && Length(TAXI, SG.points) == 8.0
  {
    Length2(S, M);
    Length2(M, Y);
    Length2(Y, G);
    Length3(S, At(6.0), Y);
    Length3(S, At(5.5), G);
  }

  lemma GraphOk()
    ensures ProblemOk(PROBLEM)
  {
    TaxiIsMetric();
    assert forall x, e :: x in NODES && e in NODES[x] ==> EdgeFiled(NODES, x, e);
  }

  // ---------- the run, in terms of what matters about the points and edges ----------

  /** A search problem shaped like the picture above. */
  datatype Setup = Setup(p: Problem, s: Point, m: Point, y: Point, g: Point, sm: Poly, my: Poly, yg: Poly, sy: Poly, sg: Poly)

  ghost predicate Runs(e: Poly, a: Point, b: Point, d: Distance, length: real) {
    e.points != [] && First(e) == a && Last(e) == b && Length(d, e.points) == length
  }

  ghost predicate Shaped(c: Setup) {
    && c.s != c.m && c.s != c.y && c.s != c.g && c.m != c.y && c.m != c.g && c.y != c.g
    && c.p.start == c.s
    && Runs(c.sm, c.s, c.m, c.p.d, 1.0) && Runs(c.my, c.m, c.y, c.p.d, 1.0) && Runs(c.yg, c.y, c.g, c.p.d, 1.0)
    && Runs(c.sy, c.s, c.y, c.p.d, 10.0) && Runs(c.sg, c.s, c.g, c.p.d, 8.0)
    && c.p.nodes == map[c.s := [c.sy, c.sm, c.sg], c.m := [c.sm, c.my], c.y := [c.sy, c.my, c.yg], c.g := [c.sg, c.yg]]
  }

  /** The search for G. */
  ghost predicate Pictured(c: Setup) {
    Shaped(c) && c.p.goal == c.g && c.p.d(c.m, c.g) == 2.0 && c.p.d(c.y, c.g) == 1.0 && c.p.d(c.g, c.g) == 0.0
  }

  /** The state at the head of the loop after S has been expanded. */
  ghost function AfterS(c: Setup): State {
    State([Item(3.0, c.m), Item(8.0, c.g), Item(11.0, c.y)], {c.y, c.m, c.g}, {c.s},
          map[c.s := 0.0][c.y := 10.0][c.m := 1.0][c.g := 8.0],
          map[][c.y := Back(c.s, c.sy)][c.m := Back(c.s, c.sm)][c.g := Back(c.s, c.sg)])
  }

  /** And after M: the score of Y is 2 now, its key still 11. */
  ghost function AfterM(c: Setup): State {
    State([Item(8.0, c.g), Item(11.0, c.y)], {c.y, c.g}, {c.s, c.m},
          AfterS(c).g[c.y := 2.0], AfterS(c).cameFrom[c.y := Back(c.m, c.my)])
  }

  lemma ExpandS(c: Setup)
    requires Pictured(c)
    ensures RelaxAll(c.p, c.s, [c.sy, c.sm, c.sg], Pop(Init(c.p))) == AfterS(c)
  {
    var t0 := Pop(Init(c.p));
    var e3, e2, e1 := [c.sy, c.sm, c.sg], [c.sy, c.sm], [c.sy];
    assert e3[..2] == e2 && e2[..1] == e1 && e1[..0] == [];
    var t1 := Relax(c.p, c.s, c.sy, t0);
    assert RelaxAll(c.p, c.s, e1, t0) == t1;
    assert t1.heap == [Item(11.0, c.y)] && t1.open == {c.y} && t1.closed == {c.s};
    var t2 := Relax(c.p, c.s, c.sm, t1);
    assert RelaxAll(c.p, c.s, e2, t0) == t2;
    assert t2.heap == [Item(3.0, c.m), Item(11.0, c.y)] && t2.open == {c.y, c.m} && t2.closed == {c.s};
    var t3 := Relax(c.p, c.s, c.sg, t2);
    assert t2.heap[1..] == [Item(11.0, c.y)];
    assert Push(t2.heap[1..], Item(8.0, c.g)) == [Item(8.0, c.g), Item(11.0, c.y)];
    assert t3.heap == [Item(3.0, c.m)] + Push(t2.heap[1..], Item(8.0, c.g));
    assert t3.heap == AfterS(c).heap;
    assert t3.open == AfterS(c).open;
  }

  lemma ExpandM(c: Setup)
    requires Pictured(c)
    ensures RelaxAll(c.p, c.m, [c.sm, c.my], Pop(AfterS(c))) == AfterM(c)
  {
    var t0 := Pop(AfterS(c));
    var e2, e1 := [c.sm, c.my], [c.sm];
    assert e2[..1] == e1 && e1[..0] == [];
    assert RelaxAll(c.p, c.m, e1, t0) == t0;
    var t1 := Relax(c.p, c.m, c.my, t0);
    assert t1.heap == AfterM(c).heap && t1.open == AfterM(c).open && t1.closed == AfterM(c).closed;
  }

  lemma FirstStep(c: Setup)
    requires Pictured(c) && ProblemOk(c.p)
    ensures Inv(c.p, Init(c.p)) && Inv(c.p, AfterS(c))
    ensures Search(c.p, Init(c.p)) == Search(c.p, AfterS(c))
  {
    InitInv(c.p);
    ExpandS(c);
    var s := Init(c.p);
    assert s.heap[0].node == c.s && c.p.nodes[c.s] == [c.sy, c.sm, c.sg];
    assert Step(c.p, s) == AfterS(c);
  }

  lemma SecondStep(c: Setup)
    requires Pictured(c) && ProblemOk(c.p) && Inv(c.p, AfterS(c))
    ensures Inv(c.p, AfterM(c))
    ensures Search(c.p, AfterS(c)) == Search(c.p, AfterM(c))
  {
    ExpandM(c);
    var s := AfterS(c);
    assert s.heap[0].node == c.m && c.p.nodes[c.m] == [c.sm, c.my];
    assert c.y in s.open;
    assert Step(c.p, s) == AfterM(c);
  }

  lemma SearchStops(p: Problem, s: State)
    requires Inv(p, s) && s.heap != [] && s.heap[0].node == p.goal
    ensures Search(p, s) == Some(s)
  {
    MirrorsEmpty(s.heap, s.open);
  }

  lemma AnswerFromFinal(p: Problem, s: State)
    requires ProblemOk(p) && Inv(p, Init(p)) && Inv(p, s) && s.heap != [] && s.heap[0].node == p.goal
    requires Search(p, Init(p)) == Search(p, s)
    ensures p.goal in s.g && Answer(p).Some? && Length(p.d, Answer(p).value.points) == s.g[p.goal]
  {
    SearchStops(p, s);
    FoundIsWalk(p, s);
  }

  lemma SearchReturnsDetour(c: Setup)
    requires Pictured(c) && ProblemOk(c.p)
    ensures Answer(c.p).Some? && Length(c.p.d, Answer(c.p).value.points) == 8.0
  {
    hide Shaped, Inv, Length;
    FirstStep(c);
    SecondStep(c);
    AnswerFromFinal(c.p, AfterM(c));
  }

  /** The walk of cost 3 that the search misses. */
  lemma ShortcutIsWalk(c: Setup) returns (hops: seq<Hop>)
    requires Pictured(c)
    ensures IsWalk(c.p.nodes, c.s, hops, c.g) && Cost(c.p.d, hops) == 3.0
  {
    var h1, h2, h3 := Hop(c.sm, c.s, c.m), Hop(c.my, c.m, c.y), Hop(c.yg, c.y, c.g);
    var w0: seq<Hop> := [];
    var w1, w2, w3 := [h1], [h1, h2], [h1, h2, h3];
    assert w1[..0] == w0 && w2[..1] == w1 && w3[..2] == w2;
    assert IsWalk(c.p.nodes, c.s, w0, c.s);
    assert IsWalk(c.p.nodes, c.s, w1, c.m);
    assert IsWalk(c.p.nodes, c.s, w2, c.y);
    assert Cost(c.p.d, w1) == 1.0 && Cost(c.p.d, w2) == 2.0;
    hops := w3;
  }

  const PICTURE := Setup(PROBLEM, S, M, Y, G, SM, MY, YG, SY, SG)

  lemma PictureIsReal()
    ensures Pictured(PICTURE)
  {
    NodesDiffer();
    DistancesRight();
    EdgesRight();
    var c := PICTURE;
    assert c.p.nodes == map[c.s := [c.sy, c.sm, c.sg], c.m := [c.sm, c.my], c.y := [c.sy, c.my, c.yg], c.g := [c.sg, c.yg]];
  }

  lemma DistancesRight()
    ensures TAXI(M, G) == 2.0 && TAXI(Y, G) == 1.0 && TAXI(G, G) == 0.0
  {
  }

  lemma EdgesRight()
    ensures Runs(SM, S, M, TAXI, 1.0) && Runs(MY, M, Y, TAXI, 1.0) && Runs(YG, Y, G, TAXI, 1.0)
    ensures Runs(SY, S, Y, TAXI, 10.0) && Runs(SG, S, G, TAXI, 8.0)
  {
    Lengths();
  }

  lemma NodesDiffer()
    ensures S != M && S != Y && S != G && M != Y && M != G && Y != G
  {
  }

  /** The search answers with a path of length 8 although a walk of cost 3 exists. */
  lemma StaleKeyMissesShortest()
    ensures ProblemOk(PROBLEM)
    ensures Answer(PROBLEM).Some? && Length(TAXI, Answer(PROBLEM).value.points) == 8.0
    ensures exists hops :: IsWalk(PROBLEM.nodes, PROBLEM.start, hops, PROBLEM.goal) && Cost(TAXI, hops) == 3.0
    ensures !RunIsSteady(PROBLEM) && !RunNeverImproves(PROBLEM)
  {
    GraphOk();
    PictureIsReal();
    SearchReturnsDetour(PICTURE);
    var hops := ShortcutIsWalk(PICTURE);
    DetourIsUnsteady(PROBLEM, hops);
  }

  lemma DetourIsUnsteady(p: Problem, hops: seq<Hop>)
    requires ProblemOk(p) && Answer(p).Some?
    requires IsWalk(p.nodes, p.start, hops, p.goal) && Cost(p.d, hops) < Length(p.d, Answer(p).value.points)
    ensures !RunIsSteady(p) && !RunNeverImproves(p)
  {
    if RunIsSteady(p) {
      SteadyAnswerIsShortest(p);
    }
    if RunNeverImproves(p) {
      AnswerIsShortest(p);
    }
  }
}
