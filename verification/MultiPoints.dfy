/** Paths through a list of places: what find_shortest_multi_point_path puts together, leg by leg. */
module MultiPoints {
  import opened Wrappers
  import opened Polylines
  import opened Sequences
  import opened Walks
  import opened Searches
  import opened SearchProofs
  import opened SearchOptimality
  import Beams

  /** The fixed data of one multi-point search. */
  datatype Area = Area(nodes: Nodes, d: Distance, radius: real)

  ghost predicate AreaOk(a: Area) {
    WellFormed(a.nodes) && Metric(a.d)
  }

  predicate Near(a: Area, place: Point, x: Point) {
    x in a.nodes && a.d(x, place) < a.radius
  }

  /** hops pass, in order, nodes near each of the places, and end at w, the node near the last one. */
  ghost predicate Through(a: Area, places: seq<Point>, hops: seq<Hop>, w: Point)
    requires places != []
    decreases |places|
  {
    var n := |places| - 1;
    Near(a, places[n], w) &&
    if n == 0 then hops == []
    else exists k, v :: 0 <= k <= |hops| && Through(a, places[..n], hops[..k], v) && IsWalk(a.nodes, v, hops[k..], w)
  }

  lemma {:induction false} ThroughIsWalk(a: Area, places: seq<Point>, hops: seq<Hop>, w: Point) returns (w0: Point)
    requires places != [] && Through(a, places, hops, w)
    ensures Near(a, places[0], w0) && IsWalk(a.nodes, w0, hops, w)
    decreases |places|
  {
    var n := |places| - 1;
    if n == 0 {
      w0 := w;
    } else {
      var k, v :| 0 <= k <= |hops| && Through(a, places[..n], hops[..k], v) && IsWalk(a.nodes, v, hops[k..], w);
      w0 := ThroughIsWalk(a, places[..n], hops[..k], v);
      WalkConcat(a.nodes, w0, hops[..k], v, hops[k..], w);
      assert hops[..k] + hops[k..] == hops;
    }
  }

  lemma ThroughExtend(a: Area, places: seq<Point>, hops: seq<Hop>, v: Point, place: Point, leg: seq<Hop>, w: Point)
    requires places != [] && Through(a, places, hops, v)
    requires IsWalk(a.nodes, v, leg, w) && Near(a, place, w)
    ensures Through(a, places + [place], hops + leg, w)
  {
    var all, k := hops + leg, |hops|;
    assert all[..k] == hops && all[k..] == leg;
    assert (places + [place])[..|places|] == places;
  }

  /** poly is the polyline of a walk through the places. */
  ghost predicate Carries(a: Area, places: seq<Point>, poly: Poly)
    requires places != []
  {
    poly.points != [] &&
    exists hops :: Through(a, places, hops, Last(poly)) && poly.points == Trace(hops)
  }

  /** The answer from start to end, with its walk. */
  lemma AnswerWalk(a: Area, start: Point, end: Point) returns (hops: seq<Hop>)
    requires AreaOk(a) && start in a.nodes && end in a.nodes
    requires Answer(Problem(a.nodes, a.d, start, end)).Some?
    ensures var path := Answer(Problem(a.nodes, a.d, start, end)).value;
            IsWalk(a.nodes, start, hops, end) && path.points == Trace(hops) &&
            (if hops == [] then path.points == [] && start == end
             else path.points != [] && First(path) == start && Last(path) == end)
  {
    var p := Problem(a.nodes, a.d, start, end);
    AnswerSoundAndComplete(p);
    hops :| IsTraceOfWalk(p, Answer(p).value, hops);
    TraceOfWalk(a.d, a.nodes, start, hops, end);
  }

  lemma FirstLeg(a: Area, p0: Point, p1: Point, start: Point, end: Point)
    requires AreaOk(a) && Near(a, p0, start) && Near(a, p1, end)
    requires var r := Answer(Problem(a.nodes, a.d, start, end)); r.Some? && r.value.points != []
    ensures Carries(a, [p0, p1], Answer(Problem(a.nodes, a.d, start, end)).value)
  {
    var hops := AnswerWalk(a, start, end);
    OneLeg(a, p0, p1, start, end, hops);
    CarriesBy(a, [p0, p1], Answer(Problem(a.nodes, a.d, start, end)).value, hops, end);
  }

  lemma OneLeg(a: Area, p0: Point, p1: Point, start: Point, end: Point, hops: seq<Hop>)
    requires Near(a, p0, start) && Near(a, p1, end) && IsWalk(a.nodes, start, hops, end)
    ensures Through(a, [p0, p1], hops, end)
  {
    ThroughOne(a, p0, start);
    ThroughExtend(a, [p0], [], start, p1, hops, end);
    PairOf(p0, p1);
    NothingBefore(hops);
    ThroughSame(a, [p0] + [p1], [p0, p1], [] + hops, hops, end);
  }

  lemma PairOf<T>(x: T, y: T)
    ensures [x] + [y] == [x, y]
  {
  }

  lemma NothingBefore<T>(s: seq<T>)
    ensures [] + s == s
  {
  }

  lemma ThroughOne(a: Area, place: Point, w: Point)
    requires Near(a, place, w)
    ensures Through(a, [place], [], w)
  {
  }

  lemma ThroughSame(a: Area, places: seq<Point>, places': seq<Point>, hops: seq<Hop>, hops': seq<Hop>, w: Point)
    requires places == places' && hops == hops' && places != [] && Through(a, places, hops, w)
    ensures Through(a, places', hops', w)
  {
  }

  lemma CarriesBy(a: Area, places: seq<Point>, poly: Poly, hops: seq<Hop>, w: Point)
    requires places != [] && poly.points != [] && poly.points == Trace(hops) && w == Last(poly) && Through(a, places, hops, w)
    ensures Carries(a, places, poly)
  {
  }

  lemma {:induction false} JoinLeg(poly: seq<Point>, hops: seq<Hop>, seg: seq<Point>, leg: seq<Hop>, m: seq<Point>, end: Point)
    requires poly != [] && poly == Trace(hops) && seg == Trace(leg) && m == Join(poly, seg)
    requires if leg == [] then poly[|poly| - 1] == end else seg != [] && seg[0] == poly[|poly| - 1] && seg[|seg| - 1] == end
    ensures m == Trace(hops + leg) && m != [] && m[|m| - 1] == end
  {
    TraceConcat(hops, leg);
  }

  lemma CarriedWalk(a: Area, places: seq<Point>, poly: Poly) returns (hops: seq<Hop>)
    requires places != [] && Carries(a, places, poly)
    ensures Through(a, places, hops, Last(poly)) && poly.points == Trace(hops) && poly.points != []
    ensures Near(a, places[|places| - 1], Last(poly))
  {
    hops :| Through(a, places, hops, Last(poly)) && poly.points == Trace(hops);
  }

  lemma NextLeg(a: Area, places: seq<Point>, poly: Poly, place: Point, end: Point)
    requires AreaOk(a) && places != [] && Carries(a, places, poly) && Near(a, place, end)
    ensures Last(poly) in a.nodes
    ensures var r := Answer(Problem(a.nodes, a.d, Last(poly), end));
            r.Some? ==> Carries(a, places + [place], Merged(a.d, [poly, r.value], 0.0))
  {
    var hops := CarriedWalk(a, places, poly);
    var r := Answer(Problem(a.nodes, a.d, Last(poly), end));
    if r.Some? {
      var leg := AnswerWalk(a, Last(poly), end);
      NextLegOf(a, places, poly, hops, place, end, r.value, leg);
    }
  }

  lemma NextLegOf(a: Area, places: seq<Point>, poly: Poly, hops: seq<Hop>, place: Point, end: Point, seg: Poly, leg: seq<Hop>)
    requires AreaOk(a) && places != [] && Near(a, place, end)
    requires poly.points != [] && poly.points == Trace(hops) && Through(a, places, hops, Last(poly))
    requires IsWalk(a.nodes, Last(poly), leg, end) && seg.points == Trace(leg)
    requires if leg == [] then seg.points == [] && Last(poly) == end
             else seg.points != [] && First(seg) == Last(poly) && Last(seg) == end
    ensures Carries(a, places + [place], Merged(a.d, [poly, seg], 0.0))
  {
    var m := Merged(a.d, [poly, seg], 0.0);
    MergedIsJoin(a.d, poly, seg);
    JoinLeg(poly.points, hops, seg.points, leg, m.points, end);
    ThroughExtend(a, places, hops, Last(poly), place, leg, end);
    CarriesBy(a, places + [place], m, hops + leg, end);
  }

  // ---------- what a step offers to the beam ----------

  /** xs are the nodes near place. */
  ghost predicate AreNear(a: Area, place: Point, xs: seq<Point>) {
    forall x :: x in xs <==> Near(a, place, x)
  }

  /** Every path offered carries through the places, and is as long as it says; each is its own object. */
  ghost predicate OffersOk(a: Area, places: seq<Point>, offers: seq<Beams.Entry>, nextId: nat)
    requires places != []
  {
    && Beams.DistinctIds(offers)
    && (forall e :: e in offers ==> e.id < nextId && e.length == Length(a.d, e.path.points) && Carries(a, places, e.path))
  }

  lemma OffersExtend(a: Area, places: seq<Point>, offers: seq<Beams.Entry>, nextId: nat, path: Poly)
    requires places != [] && OffersOk(a, places, offers, nextId) && Carries(a, places, path)
    ensures OffersOk(a, places, offers + [Beams.Entry(Length(a.d, path.points), path, nextId)], nextId + 1)
  {
    forall e | e in offers
      ensures e.id != nextId
    {
    }
  }

  lemma OfferAllExtend(offers: seq<Beams.Entry>, e: Beams.Entry, n: nat)
    requires n >= 1
    ensures Beams.OfferAll(offers + [e], n) == Beams.Offer(Beams.OfferAll(offers, n), e, n)
  {
    assert (offers + [e])[..|offers|] == offers;
  }

  /** If end can be reached from start by a nonempty path, the search's path was offered. */
  ghost predicate Covered(a: Area, offers: seq<Beams.Entry>, start: Point, end: Point)
    requires ProblemOk(Problem(a.nodes, a.d, start, end))
  {
    var r := Answer(Problem(a.nodes, a.d, start, end));
    r.Some? && r.value.points != [] ==> OfferedPath(a, offers, r.value)
  }

  ghost predicate OfferedPath(a: Area, offers: seq<Beams.Entry>, path: Poly) {
    exists e :: e in offers && e.path == path && e.length == Length(a.d, path.points)
  }

  lemma OfferedStays(a: Area, offers: seq<Beams.Entry>, e: Beams.Entry, path: Poly)
    requires OfferedPath(a, offers, path) || (e.path == path && e.length == Length(a.d, path.points))
    ensures OfferedPath(a, offers + [e], path)
  {
    if OfferedPath(a, offers, path) {
      var o :| o in offers && o.path == path && o.length == Length(a.d, path.points);
      assert o in offers + [e];
    } else {
      assert e in offers + [e];
    }
  }

  /** The heap is what the offers made so far leave in a beam of size n; a beam without room has had none. */
  ghost predicate BeamOk(a: Area, places: seq<Point>, n: int, heap: seq<Beams.Entry>, offers: seq<Beams.Entry>, nextId: nat)
    requires places != []
  {
    && OffersOk(a, places, offers, nextId)
    && (if n >= 1 then heap == Beams.OfferAll(offers, n) else heap == offers == [])
  }

  /** Whatever was offered before is still on record. */
  ghost predicate Grown(a: Area, offers: seq<Beams.Entry>, offers': seq<Beams.Entry>) {
    forall path :: OfferedPath(a, offers, path) ==> OfferedPath(a, offers', path)
  }

  /** All paths from start to the nodes of ends were offered. */
  ghost predicate CoveredAll(a: Area, offers: seq<Beams.Entry>, start: Point, ends: seq<Point>) {
    forall y :: y in ends ==> ProblemOk(Problem(a.nodes, a.d, start, y)) && Covered(a, offers, start, y)
  }

  lemma CoveredAllGrown(a: Area, offers: seq<Beams.Entry>, offers': seq<Beams.Entry>, start: Point, ends: seq<Point>)
    requires CoveredAll(a, offers, start, ends) && Grown(a, offers, offers')
    ensures CoveredAll(a, offers', start, ends)
  {
    forall y | y in ends
      ensures ProblemOk(Problem(a.nodes, a.d, start, y)) && Covered(a, offers', start, y)
    {
      assert Covered(a, offers, start, y);
    }
  }

  lemma CoveredAllConcat(a: Area, offers: seq<Beams.Entry>, start: Point, ends: seq<Point>, more: seq<Point>)
    requires CoveredAll(a, offers, start, ends) && CoveredAll(a, offers, start, more)
    ensures CoveredAll(a, offers, start, ends + more)
  {
  }

  lemma TwoOf<T>(s: seq<T>)
    requires |s| == 2
    ensures s == [s[0], s[1]]
  {
  }

  lemma AnswerCarries(a: Area, places: seq<Point>, start: Point, end: Point, path: Option<Poly>)
    requires AreaOk(a) && |places| == 2 && Near(a, places[0], start) && Near(a, places[1], end)
    requires path == Answer(Problem(a.nodes, a.d, start, end))
    ensures path.Some? && path.value.points != [] ==> Carries(a, places, path.value)
  {
    if path.Some? && path.value.points != [] {
      FirstLeg(a, places[0], places[1], start, end);
      TwoOf(places);
    }
  }

  lemma AnswerCovered(a: Area, offers: seq<Beams.Entry>, start: Point, end: Point, path: Option<Poly>)
    requires ProblemOk(Problem(a.nodes, a.d, start, end)) && path == Answer(Problem(a.nodes, a.d, start, end))
    requires path.Some? && path.value.points != [] ==> OfferedPath(a, offers, path.value)
    ensures CoveredAll(a, offers, start, [end])
  {
  }

  /** Cached answers are the answers. */
  ghost predicate CacheOk(a: Area, cache: map<(Point, Point), Option<Poly>>) {
    forall k :: k in cache ==>
      ProblemOk(Problem(a.nodes, a.d, k.0, k.1)) && cache[k] == Answer(Problem(a.nodes, a.d, k.0, k.1))
  }

  lemma ExtendedCarries(a: Area, places: seq<Point>, poly: Poly, place: Point, end: Point, seg: Option<Poly>)
    requires AreaOk(a) && places != [] && Carries(a, places, poly) && Near(a, place, end)
    requires Last(poly) in a.nodes ==> seg == Answer(Problem(a.nodes, a.d, Last(poly), end))
    ensures seg.Some? ==> Carries(a, places + [place], Merged(a.d, [poly, seg.value], 0.0))
  {
    NextLeg(a, places, poly, place, end);
  }

  lemma CarriesEndsInGraph(a: Area, places: seq<Point>, poly: Poly)
    requires places != [] && Carries(a, places, poly)
    ensures Last(poly) in a.nodes
  {
  }

  /** Of the paths in the beam, the best one carries through the places. */
  lemma BestCarries(a: Area, places: seq<Point>, n: int, heap: seq<Beams.Entry>, offers: seq<Beams.Entry>, nextId: nat)
    requires places != [] && BeamOk(a, places, n, heap, offers, nextId)
    ensures LastBeam(a, n, places, heap, offers)
  {
    if n >= 1 {
      Beams.KeptWereOffered(offers, n);
      Beams.HeapIsKept(offers, n);
      Beams.KeptSize(offers, n);
      if n >= 2 && offers != [] {
        Beams.BestOfTwoOrMore(offers, n);
      }
    }
  }

  /** The answer between two nodes near the places is a path no shorter than length. */
  ghost predicate NoBetterPair(a: Area, length: real, x: Point, y: Point)
    requires ProblemOk(Problem(a.nodes, a.d, x, y))
  {
    var r := Answer(Problem(a.nodes, a.d, x, y));
    r.Some? && r.value.points != [] ==> length <= Length(a.d, r.value.points)
  }

  lemma BestOfCovered(a: Area, offers: seq<Beams.Entry>, best: Beams.Entry, x: Point, y: Point)
    requires ProblemOk(Problem(a.nodes, a.d, x, y)) && Covered(a, offers, x, y) && Beams.NoneShorter(best, offers)
    ensures NoBetterPair(a, best.length, x, y)
  {
  }

  // ---------- the steps of the beam search ----------

  /** q leads from x to y as the search does. */
  ghost predicate IsLeg(a: Area, x: Point, y: Point, q: Poly) {
    ProblemOk(Problem(a.nodes, a.d, x, y)) && Answer(Problem(a.nodes, a.d, x, y)) == Some(q) && q.points != []
  }

  /** q is path with the search's path from its end to y. */
  ghost predicate IsExtension(a: Area, path: Poly, y: Point, q: Poly) {
    && path.points != [] && ProblemOk(Problem(a.nodes, a.d, Last(path), y))
    && var r := Answer(Problem(a.nodes, a.d, Last(path), y));
       r.Some? && q == Merged(a.d, [path, r.value], 0.0)
  }

  ghost predicate LegOfPlaces(a: Area, place: Point, place': Point, q: Poly) {
    exists x, y :: Near(a, place, x) && Near(a, place', y) && IsLeg(a, x, y, q)
  }

  ghost predicate ExtendsTo(a: Area, path: Poly, place: Point, q: Poly) {
    exists y :: Near(a, place, y) && IsExtension(a, path, y, q)
  }

  ghost predicate ExtendsOne(a: Area, heap: seq<Beams.Entry>, place: Point, q: Poly) {
    exists p: Beams.Entry :: p in heap && ExtendsTo(a, p.path, place, q)
  }

  /** The heap is what is left of these offers, each of which is as long as it says. */
  ghost predicate IsBeamOf(a: Area, n: nat, heap: seq<Beams.Entry>, offers: seq<Beams.Entry>)
    requires n >= 1
  {
    && heap == Beams.OfferAll(offers, n) && Beams.DistinctIds(offers)
    && forall e :: e in offers ==> e.length == Length(a.d, e.path.points)
  }

  /** Exactly the paths between nodes near the two places have been offered. */
  ghost predicate LegsOffered(a: Area, place: Point, place': Point, offers: seq<Beams.Entry>) {
    forall q :: LegOfPlaces(a, place, place', q) <==> OfferedPath(a, offers, q)
  }

  /** Exactly the extensions of the kept paths to nodes near the place have been offered. */
  ghost predicate ExtensionsOffered(a: Area, before: seq<Beams.Entry>, place: Point, offers: seq<Beams.Entry>) {
    forall q :: ExtendsOne(a, before, place, q) <==> OfferedPath(a, offers, q)
  }

  ghost predicate FirstBeam(a: Area, n: nat, place: Point, place': Point, heap: seq<Beams.Entry>)
    requires n >= 1
  {
    exists offers :: IsBeamOf(a, n, heap, offers) && LegsOffered(a, place, place', offers)
  }

  ghost predicate NextBeam(a: Area, n: nat, place: Point, before: seq<Beams.Entry>, heap: seq<Beams.Entry>)
    requires n >= 1
  {
    exists offers :: IsBeamOf(a, n, heap, offers) && ExtensionsOffered(a, before, place, offers)
  }

  /** The beams of all steps, from the second place on. */
  ghost predicate AreBeams(a: Area, n: nat, places: seq<Point>, beams: seq<seq<Beams.Entry>>)
    requires n >= 1 && |places| >= 2
  {
    && |beams| == |places| - 1
    && FirstBeam(a, n, places[0], places[1], beams[0])
    && forall k {:trigger beams[k]} :: 0 < k < |beams| ==> NextBeam(a, n, places[k + 1], beams[k - 1], beams[k])
  }

  lemma NextBeamsEnd(a: Area, n: int, places: seq<Point>, i: nat, beams: seq<seq<Beams.Entry>>, before: seq<Beams.Entry>,
                     heap: seq<Beams.Entry>, offers: seq<Beams.Entry>, nextId: nat)
    requires 2 <= i < |places| && BeamsEnd(a, n, places[..i], beams, before)
    requires BeamOk(a, places[..i] + [places[i]], n, heap, offers, nextId) && ExtensionsOffered(a, before, places[i], offers)
    ensures BeamOk(a, places[..i + 1], n, heap, offers, nextId) && BeamsEnd(a, n, places[..i + 1], beams + [heap], heap)
  {
    assert places[..i + 1] == places[..i] + [places[i]];
    if n >= 1 {
      NextBeamIs(a, n, places[..i + 1], places[i], before, heap, offers, nextId);
      BeamsExtend(a, n, places, beams, i, heap);
    }
  }

  lemma BeamsExtend(a: Area, n: nat, places: seq<Point>, beams: seq<seq<Beams.Entry>>, i: nat, heap: seq<Beams.Entry>)
    requires n >= 1 && 2 <= i < |places| && AreBeams(a, n, places[..i], beams)
    requires NextBeam(a, n, places[i], beams[|beams| - 1], heap)
    ensures AreBeams(a, n, places[..i + 1], beams + [heap])
  {
    var all, more := beams + [heap], places[..i + 1];
    forall k | 0 < k < |all|
      ensures NextBeam(a, n, more[k + 1], all[k - 1], all[k])
    {
      if k < |beams| {
        assert beams[k] == all[k] && beams[k - 1] == all[k - 1] && more[k + 1] == places[..i][k + 1];
      }
    }
  }

  lemma FirstBeamIs(a: Area, n: nat, places: seq<Point>, heap: seq<Beams.Entry>, offers: seq<Beams.Entry>, nextId: nat)
    requires n >= 1 && |places| >= 2 && BeamOk(a, places[..2], n, heap, offers, nextId)
    requires LegsOffered(a, places[0], places[1], offers)
    ensures AreBeams(a, n, places[..2], [heap])
  {
    assert IsBeamOf(a, n, heap, offers);
  }

  lemma NextBeamIs(a: Area, n: nat, places: seq<Point>, place: Point, before: seq<Beams.Entry>,
                   heap: seq<Beams.Entry>, offers: seq<Beams.Entry>, nextId: nat)
    requires n >= 1 && places != [] && BeamOk(a, places, n, heap, offers, nextId)
    requires ExtensionsOffered(a, before, place, offers)
    ensures NextBeam(a, n, place, before, heap)
  {
    assert IsBeamOf(a, n, heap, offers);
  }

  /** The beams so far, of which heap is the last. */
  ghost predicate BeamsEnd(a: Area, n: int, places: seq<Point>, beams: seq<seq<Beams.Entry>>, heap: seq<Beams.Entry>)
    requires |places| >= 2
  {
    beams != [] && beams[|beams| - 1] == heap && (n >= 1 ==> AreBeams(a, n, places, beams))
  }

  /** What the last beam holds, and that its best path beats all offers if there is room for two. */
  ghost predicate LastBeam(a: Area, n: int, places: seq<Point>, heap: seq<Beams.Entry>, offers: seq<Beams.Entry>)
    requires places != []
  {
    && (forall e :: e in heap ==> e.length == Length(a.d, e.path.points) && Carries(a, places, e.path))
    && (heap == [] <==> offers == [])
    && (n >= 2 && heap != [] ==> Beams.NoneShorter(Beams.Best(heap), offers))
  }

  /** For two places: the path is as short as every one between nodes near them, and there is none only if they are apart. */
  ghost predicate BestOfTwoPlaces(a: Area, n: int, place: Point, place': Point, path: Option<Poly>) {
    forall x, y :: Near(a, place, x) && Near(a, place', y) ==>
      && ProblemOk(Problem(a.nodes, a.d, x, y))
      && (path.None? ==> x == y || !Reachable(a.nodes, x, y))
      && (path.Some? && n >= 2 ==> NoBetterPair(a, Length(a.d, path.value.points), x, y))
  }

  /**
   Then no walk between two different nodes near the places is shorter than the path, if the search between these
   two nodes takes only nodes of least up-to-date keys; in particular if it improves no open node.
   */
  lemma NoWalkIsShorter(a: Area, n: int, place: Point, place': Point, path: Option<Poly>, x: Point, y: Point, hops: seq<Hop>)
    requires n >= 2 && BestOfTwoPlaces(a, n, place, place', path)
    requires Near(a, place, x) && Near(a, place', y) && x != y && IsWalk(a.nodes, x, hops, y)
    requires ProblemOk(Problem(a.nodes, a.d, x, y)) && RunIsSteady(Problem(a.nodes, a.d, x, y))
    ensures path.Some? && Length(a.d, path.value.points) <= Cost(a.d, hops)
  {
    hide RunIsSteady, Answer, ProblemOk;
    var p := Problem(a.nodes, a.d, x, y);
    assert Reachable(a.nodes, x, y);
    AnswerSoundAndComplete(p);
    SteadyAnswerIsShortest(p);
  }

  ghost predicate NoneNear(a: Area, place: Point) {
    forall x :: !Near(a, place, x)
  }

  /** The path returned for a beam. */
  function BestOf(heap: seq<Beams.Entry>): Option<Poly> {
    if heap == [] then None else Some(Beams.Best(heap).path)
  }

  lemma FirstStep(a: Area, n: int, places: seq<Point>, heap: seq<Beams.Entry>, offers: seq<Beams.Entry>, nextId: nat)
    requires |places| >= 2 && BeamOk(a, places[..2], n, heap, offers, nextId) && LegsOffered(a, places[0], places[1], offers)
    ensures BeamsEnd(a, n, places[..2], [heap], heap)
  {
    if n >= 1 {
      FirstBeamIs(a, n, places, heap, offers, nextId);
    }
  }

  lemma LastStep(a: Area, n: int, places: seq<Point>, beams: seq<seq<Beams.Entry>>, heap: seq<Beams.Entry>,
                 offers: seq<Beams.Entry>, nextId: nat)
    requires |places| >= 2 && BeamOk(a, places[..|places|], n, heap, offers, nextId)
    requires BeamsEnd(a, n, places[..|places|], beams, heap)
    ensures BeamsEnd(a, n, places, beams, heap) && LastBeam(a, n, places, heap, offers)
  {
    TakeAll(places);
    BestCarries(a, places, n, heap, offers, nextId);
  }

  /** With room for two, the best of a beam is as short as every extension of a path in the beam before. */
  lemma BestExtension(a: Area, n: nat, place: Point, before: seq<Beams.Entry>, heap: seq<Beams.Entry>, q: Poly)
    requires n >= 2 && NextBeam(a, n, place, before, heap) && ExtendsOne(a, before, place, q)
    ensures heap != [] && Beams.Best(heap).length <= Length(a.d, q.points)
  {
    var offers :| IsBeamOf(a, n, heap, offers) && ExtensionsOffered(a, before, place, offers);
    assert OfferedPath(a, offers, q);
    Beams.BestOfTwoOrMore(offers, n);
  }

  // ---------- one record of offers after another ----------

  /** The paths of ends that the search finds from start. */
  ghost predicate LegTo(a: Area, start: Point, ends: seq<Point>, q: Poly) {
    exists y :: y in ends && IsLeg(a, start, y, q)
  }

  ghost predicate ExtensionTo(a: Area, path: Poly, ends: seq<Point>, q: Poly) {
    exists y :: y in ends && IsExtension(a, path, y, q)
  }

  lemma ExtensionToOneMore(a: Area, path: Poly, ends: seq<Point>, j: nat)
    requires j < |ends|
    ensures forall q :: ExtensionTo(a, path, ends[..j + 1], q) <==> ExtensionTo(a, path, ends[..j], q) || IsExtension(a, path, ends[j], q)
  {
    assert ends[..j + 1] == ends[..j] + [ends[j]];
    assert forall y :: y in ends[..j + 1] <==> y in ends[..j] || y == ends[j];
  }

  lemma LegsAreOffered(a: Area, place: Point, place': Point, starts: seq<Point>, ends: seq<Point>, offers: seq<Beams.Entry>)
    requires AreNear(a, place, starts) && AreNear(a, place', ends)
    requires forall x :: x in starts ==> CoveredAll(a, offers, x, ends)
    requires forall q :: OfferedPath(a, offers, q) ==> exists x :: x in starts && LegTo(a, x, ends, q)
    ensures LegsOffered(a, place, place', offers)
  {
    forall q
      ensures LegOfPlaces(a, place, place', q) <==> OfferedPath(a, offers, q)
    {
      if x, y :| Near(a, place, x) && Near(a, place', y) && IsLeg(a, x, y, q) {
        assert CoveredAll(a, offers, x, ends) && Covered(a, offers, x, y);
      }
    }
  }

  lemma ExtensionsAreOffered(a: Area, before: seq<Beams.Entry>, place: Point, ends: seq<Point>, offers: seq<Beams.Entry>)
    requires AreNear(a, place, ends)
    requires forall q :: OfferedPath(a, offers, q) <==> exists p: Beams.Entry :: p in before && ExtensionTo(a, p.path, ends, q)
    ensures ExtensionsOffered(a, before, place, offers)
  {
    forall q
      ensures ExtendsOne(a, before, place, q) <==> OfferedPath(a, offers, q)
    {
      ExtensionNear(a, before, place, ends, q);
    }
  }

  lemma ExtensionNear(a: Area, before: seq<Beams.Entry>, place: Point, ends: seq<Point>, q: Poly)
    requires AreNear(a, place, ends)
    ensures ExtendsOne(a, before, place, q) <==> exists p: Beams.Entry :: p in before && ExtensionTo(a, p.path, ends, q)
  {
    if p :| p in before && ExtendsTo(a, p.path, place, q) {
      assert ExtensionTo(a, p.path, ends, q);
    }
    if p :| p in before && ExtensionTo(a, p.path, ends, q) {
      assert ExtendsTo(a, p.path, place, q);
    }
  }
}
