/**
 A stale key that does no harm: in the graph of StaleKeys, the search for Y takes G from the heap while the improved
 Y would be due, but then still finds the shortest path through M.
 */
module HarmlessKeys {
  import opened Wrappers
  import opened Polylines
  import opened Walks
  import opened Heaps
  import opened Searches
  import opened SearchProofs
  import opened SearchOptimality
  import opened StaleKeys

  const PROBLEM_Y := Problem(NODES, TAXI, S, Y)

  const PICTURE_Y := Setup(PROBLEM_Y, S, M, Y, G, SM, MY, YG, SY, SG)

  /** The search for Y. */
  ghost predicate PicturedY(c: Setup) {
    Shaped(c) && c.p.goal == c.y && c.p.d(c.m, c.y) == 1.0 && c.p.d(c.g, c.y) == 1.0 && c.p.d(c.y, c.y) == 0.0
  }

  // The states at the head of the loop.

  ghost function StateS(c: Setup): State {
    State([Item(2.0, c.m), Item(9.0, c.g), Item(10.0, c.y)], {c.y, c.m, c.g}, {c.s},
          map[c.s := 0.0][c.y := 10.0][c.m := 1.0][c.g := 8.0],
          map[][c.y := Back(c.s, c.sy)][c.m := Back(c.s, c.sm)][c.g := Back(c.s, c.sg)])
  }

  /** The score of Y is 2 now, its key still 10. */
  ghost function StateM(c: Setup): State {
    State([Item(9.0, c.g), Item(10.0, c.y)], {c.y, c.g}, {c.s, c.m},
          StateS(c).g[c.y := 2.0], StateS(c).cameFrom[c.y := Back(c.m, c.my)])
  }

  ghost function StateG(c: Setup): State {
    StateM(c).(heap := [Item(10.0, c.y)], open := {c.y}, closed := {c.s, c.m, c.g})
  }

  lemma ExpandS(c: Setup)
    requires PicturedY(c)
    ensures RelaxAll(c.p, c.s, [c.sy, c.sm, c.sg], Pop(Init(c.p))) == StateS(c)
  {
    var t0 := Pop(Init(c.p));
    var e3, e2, e1 := [c.sy, c.sm, c.sg], [c.sy, c.sm], [c.sy];
    assert e3[..2] == e2 && e2[..1] == e1 && e1[..0] == [];
    var t1 := Relax(c.p, c.s, c.sy, t0);
    assert RelaxAll(c.p, c.s, e1, t0) == t1;
    assert t1.heap == [Item(10.0, c.y)] && t1.open == {c.y} && t1.closed == {c.s};
    var t2 := Relax(c.p, c.s, c.sm, t1);
    assert RelaxAll(c.p, c.s, e2, t0) == t2;
    assert t2.heap == [Item(2.0, c.m), Item(10.0, c.y)] && t2.open == {c.y, c.m} && t2.closed == {c.s};
    var t3 := Relax(c.p, c.s, c.sg, t2);
    assert t2.heap[1..] == [Item(10.0, c.y)];
    assert Push(t2.heap[1..], Item(9.0, c.g)) == [Item(9.0, c.g), Item(10.0, c.y)];
    assert t3.heap == [Item(2.0, c.m)] + Push(t2.heap[1..], Item(9.0, c.g));
    assert t3.heap == StateS(c).heap && t3.open == StateS(c).open;
  }

  lemma ExpandM(c: Setup)
    requires PicturedY(c)
    ensures RelaxAll(c.p, c.m, [c.sm, c.my], Pop(StateS(c))) == StateM(c)
  {
    var t0 := Pop(StateS(c));
    var e2, e1 := [c.sm, c.my], [c.sm];
    assert e2[..1] == e1 && e1[..0] == [];
    assert RelaxAll(c.p, c.m, e1, t0) == t0;
    var t1 := Relax(c.p, c.m, c.my, t0);
    assert t1.heap == StateM(c).heap && t1.open == StateM(c).open && t1.closed == StateM(c).closed;
  }

  lemma ExpandG(c: Setup)
    requires PicturedY(c)
    ensures RelaxAll(c.p, c.g, [c.sg, c.yg], Pop(StateM(c))) == StateG(c)
  {
    var t0 := Pop(StateM(c));
    var e2, e1 := [c.sg, c.yg], [c.sg];
    assert e2[..1] == e1 && e1[..0] == [];
    assert RelaxAll(c.p, c.g, e1, t0) == t0;
    assert t0.heap == StateG(c).heap && t0.open == StateG(c).open && t0.closed == StateG(c).closed;
  }

  /** One turn of the loop leads from s to s', and the run is steady from s only if it is from s'. */
  ghost predicate Turn(p: Problem, s: State, s': State) {
    && Inv(p, s) && Inv(p, s') && Search(p, s) == Search(p, s')
    && (Steady(p, s) ==> Steady(p, s'))
  }

  lemma TurnOf(p: Problem, s: State, s': State)
    requires Inv(p, s) && s.open != {} && s.heap != [] && s.heap[0].node != p.goal && s.heap[0].node in s.g && s.heap[0].node in p.nodes
    requires (forall e :: e in p.nodes[s.heap[0].node] ==> e.points != []) && s.open <= s.g.Keys
    requires RelaxAll(p, s.heap[0].node, p.nodes[s.heap[0].node], Pop(s)) == s'
    ensures Turn(p, s, s')
  {
    assert Step(p, s) == s';
  }

  lemma TurnS(c: Setup)
    requires PicturedY(c) && ProblemOk(c.p)
    ensures Turn(c.p, Init(c.p), StateS(c))
  {
    hide Turn, RelaxAll, Pop;
    InitInv(c.p);
    ExpandS(c);
    assert c.p.nodes[c.s] == [c.sy, c.sm, c.sg];
    TurnOf(c.p, Init(c.p), StateS(c));
  }

  lemma TurnM(c: Setup)
    requires PicturedY(c) && Inv(c.p, StateS(c))
    ensures Turn(c.p, StateS(c), StateM(c))
  {
    hide Turn, RelaxAll, Pop;
    ExpandM(c);
    assert c.p.nodes[c.m] == [c.sm, c.my] && c.y in StateS(c).open;
    TurnOf(c.p, StateS(c), StateM(c));
  }

  lemma TurnG(c: Setup)
    requires PicturedY(c) && Inv(c.p, StateM(c))
    ensures Turn(c.p, StateM(c), StateG(c))
    ensures !Steady(c.p, StateM(c))
  {
    hide Turn, RelaxAll, Pop;
    ExpandG(c);
    assert c.p.nodes[c.g] == [c.sg, c.yg] && c.y in StateM(c).open;
    TurnOf(c.p, StateM(c), StateG(c));
    assert Estimate(c.p, StateM(c), c.y) == 2.0 && Estimate(c.p, StateM(c), c.g) == 9.0;
  }

  lemma RunOfPicture(c: Setup)
    requires PicturedY(c) && ProblemOk(c.p)
    ensures Answer(c.p).Some? && Length(c.p.d, Answer(c.p).value.points) == 2.0 && !RunIsSteady(c.p)
  {
    hide Shaped, Inv, Length;
    InitInv(c.p);
    TurnS(c);
    TurnM(c);
    TurnG(c);
    AnswerFromFinal(c.p, StateG(c));
  }

  /** No walk is shorter than the straight line. */
  lemma NoWalkBeatsLine(p: Problem, hops: seq<Hop>)
    requires ProblemOk(p) && p.start != p.goal && IsWalk(p.nodes, p.start, hops, p.goal)
    ensures p.d(p.start, p.goal) <= Cost(p.d, hops)
  {
    hide Metric, WellFormed;
    TraceOfWalk(p.d, p.nodes, p.start, hops, p.goal);
    LengthAtLeastSpan(p.d, Trace(hops));
  }

  lemma DistancesToY()
    ensures TAXI(S, Y) == 2.0 && TAXI(M, Y) == 1.0 && TAXI(G, Y) == 1.0 && TAXI(Y, Y) == 0.0 && S != Y
  {
  }

  lemma PictureYIsReal()
    ensures PicturedY(PICTURE_Y) && ProblemOk(PROBLEM_Y)
  {
    hide Metric, WellFormed, Runs, Taxi;
    GraphOk();
    PictureIsReal();
    DistancesToY();
  }

  /** The run is not steady, so some open node is improved in it, and yet the answer is shortest. */
  lemma StaleKeyCanBeHarmless()
    ensures ProblemOk(PROBLEM_Y) && !RunIsSteady(PROBLEM_Y) && !RunNeverImproves(PROBLEM_Y)
    ensures Answer(PROBLEM_Y).Some?
    ensures forall hops :: IsWalk(PROBLEM_Y.nodes, PROBLEM_Y.start, hops, PROBLEM_Y.goal) ==>
              Length(TAXI, Answer(PROBLEM_Y).value.points) <= Cost(TAXI, hops)
  {
    hide RunIsSteady, RunNeverImproves, Answer, ProblemOk, PicturedY, IsWalk, Length, Cost, Taxi;
    PictureYIsReal();
    RunOfPicture(PICTURE_Y);
    UnsteadyImproves(PROBLEM_Y);
    DistancesToY();
    forall hops | IsWalk(PROBLEM_Y.nodes, PROBLEM_Y.start, hops, PROBLEM_Y.goal)
      ensures Length(TAXI, Answer(PROBLEM_Y).value.points) <= Cost(TAXI, hops)
    {
      NoWalkBeatsLine(PROBLEM_Y, hops);
    }
  }

  lemma UnsteadyImproves(p: Problem)
    requires ProblemOk(p) && !RunIsSteady(p)
    ensures !RunNeverImproves(p)
  {
    InitInv(p);
    if RunNeverImproves(p) {
      NeverImprovesIsSteady(p, Init(p));
    }
  }
}
