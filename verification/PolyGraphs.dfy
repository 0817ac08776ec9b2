/** The mutable graph of polylines, and the search as it runs: loops over heaps, sets and dictionaries. */
module PolyGraphs {
  import opened Wrappers
  import opened Polylines
  import opened Sequences
  import opened Walks
  import opened Heaps
  import opened Searches
  import opened SearchProofs
  import opened SearchOptimality
  import opened MultiPoints
  import Ids
  import Beams

  /** The answer of the multi-point search; a beam without room raises an error on its first path. */
  datatype MultiPath = Path(path: Option<Poly>) | IndexError

  /** What became of a polyline to be added; a second one without a name fails where its name is to be shown. */
  datatype AddOutcome = Added | ShapeError | TypeError

  type Names = map<Option<string>, Poly>

  function OutcomeOf(names: Names, poly: Poly, smartDuplicateHandling: bool): AddOutcome {
    if poly.name !in names then Added
    else if poly.name.None? then TypeError
    else if smartDuplicateHandling then Added
    else ShapeError
  }

  /** Its own name, unless that is taken by a polyline it does not match within ten metres. */
  function NameFor(names: Names, matchDist: (Poly, Poly) -> real, poly: Poly): Option<string> {
    if poly.name.Some? && poly.name in names && matchDist(poly, names[poly.name]) >= 10.0
    then Some(poly.name.value + "-" + Ids.Decimal(|names|))
    else poly.name
  }

  /** Every polyline of the collection is an edge of the graph. */
  ghost predicate AllEdges(names: Names, nodes: Nodes) {
    forall name :: name in names ==> IsEdge(names[name], nodes)
  }

  ghost predicate IsEdge(poly: Poly, nodes: Nodes) {
    && poly.points != [] && First(poly) in nodes && Last(poly) in nodes
    && poly in nodes[First(poly)] && poly in nodes[Last(poly)]
  }

  lemma WithPolyIs(nodes: Nodes, poly: Poly)
    requires poly.points != []
    ensures WithPoly(nodes, poly) == WithEdge(WithEdge(nodes, First(poly), poly), Last(poly), poly)
  {
  }

  lemma EdgesStay(names: Names, nodes: Nodes, name: Option<string>, poly: Poly)
    requires AllEdges(names, nodes) && WellFormed(nodes) && poly.points != []
    ensures AllEdges(names[name := poly], WithPoly(nodes, poly))
  {
    WithPolyWellFormed(nodes, poly);
    forall other | other in names
      ensures IsEdge(names[other], WithPoly(nodes, poly))
    {
      assert IsEdge(names[other], nodes);
    }
  }

  class PolyGraph {
    var nodes: Nodes
    var nameToShape: Names

    constructor ()
      ensures nodes == map[] && nameToShape == map[] && WellFormed(nodes) && AllEdges(nameToShape, nodes)
    {
      nodes, nameToShape := map[], map[];
    }

    method AddNodeWithEdge(point: Point, edge: Poly)
      modifies `nodes
      ensures nodes == WithEdge(old(nodes), point, edge)
    {
      if point in nodes {
        if edge !in nodes[point] {
          nodes := nodes[point := nodes[point] + [edge]];
        }
      } else {
        nodes := nodes[point := [edge]];
      }
    }

    /** The collection's own part: the polyline is filed under a name, possibly instead of another one. */
    method AddToCollection(matchDist: (Poly, Poly) -> real, poly: Poly, smartDuplicateHandling: bool) returns (r: AddOutcome)
      modifies `nameToShape
      ensures r == OutcomeOf(old(nameToShape), poly, smartDuplicateHandling)
      ensures nameToShape == if r == Added then old(nameToShape)[NameFor(old(nameToShape), matchDist, poly) := poly]
                             else old(nameToShape)
    {
      var insertedName := poly.name;
      if poly.name in nameToShape {
        if poly.name.None? {
          return TypeError;
        }
        if !smartDuplicateHandling {
          return ShapeError;
        }
        if matchDist(poly, nameToShape[poly.name]) >= 10.0 {
          insertedName := Some(poly.name.value + "-" + Ids.Decimal(|nameToShape|));
        }
      }
      nameToShape := nameToShape[insertedName := poly];
      r := Added;
    }

    /** Unless its name is refused, the polyline is filed under its two ends, even if it is said to be skipped. */
    method AddPoly(matchDist: (Poly, Poly) -> real, poly: Poly, smartDuplicateHandling: bool) returns (r: AddOutcome)
      requires poly.points != []
      modifies this
      ensures r == OutcomeOf(old(nameToShape), poly, smartDuplicateHandling)
      ensures r != Added ==> nodes == old(nodes) && nameToShape == old(nameToShape)
      ensures r == Added ==> nodes == WithPoly(old(nodes), poly)
      ensures r == Added ==> nameToShape == old(nameToShape)[NameFor(old(nameToShape), matchDist, poly) := poly]
      ensures old(WellFormed(nodes)) ==> WellFormed(nodes)
      ensures old(WellFormed(nodes) && AllEdges(nameToShape, nodes)) ==> AllEdges(nameToShape, nodes)
    {
      hide WellFormed, AllEdges, WithPoly, NameFor;
      r := AddToCollection(matchDist, poly, smartDuplicateHandling);
      if r == Added {
        AddNodeWithEdge(First(poly), poly);
        AddNodeWithEdge(Last(poly), poly);
        WithPolyIs(old(nodes), poly);
        if old(WellFormed(nodes)) {
          WithPolyWellFormed(old(nodes), poly);
          if old(AllEdges(nameToShape, nodes)) {
            EdgesStay(old(nameToShape), old(nodes), NameFor(old(nameToShape), matchDist, poly), poly);
          }
        }
      }
    }

    /** Looks along one edge of x, the node just closed. */
    method LookAlong(ghost p: Problem, d: Distance, goal: Point, x: Point, edge: Poly, s: State) returns (s': State)
      requires p.d == d && p.goal == goal && edge.points != [] && x in s.g && s.open <= s.g.Keys
      ensures s' == Relax(p, x, edge, s)
    {
      s' := s;
      var y := if First(edge) == x then Last(edge) else First(edge);
      if y in s.closed {
        return;
      }
      var length := LengthMeters(d, edge);
      var tentativeScore := s.g[x] + length;
      var tentativeIsBetter := false;
      if y !in s.open {
        var fy := tentativeScore + d(y, goal);
        s' := s'.(open := s.open + {y}, heap := Push(s.heap, Item(fy, y)));
        tentativeIsBetter := true;
      } else if tentativeScore < s.g[y] {
        tentativeIsBetter := true;
      }
      if tentativeIsBetter {
        s' := s'.(cameFrom := s.cameFrom[y := Back(x, edge)], g := s.g[y := tentativeScore]);
      }
    }

    method ExpandEdges(ghost p: Problem, d: Distance, goal: Point, x: Point, s: State) returns (s': State)
      requires p.d == d && p.goal == goal && x in nodes && x in s.g && s.open <= s.g.Keys
      requires forall e :: e in nodes[x] ==> e.points != []
      ensures s' == RelaxAll(p, x, nodes[x], s)
    {
      var edges := nodes[x];
      s' := s;
      for i := 0 to |edges|
        invariant s' == RelaxAll(p, x, edges[..i], s)
      {
        assert edges[..i + 1][..i] == edges[..i];
        s' := LookAlong(p, d, goal, x, edges[i], s');
      }
      assert edges[..|edges|] == edges;
    }

    /**
     None exactly when goal cannot be reached; otherwise the polyline of a walk from start to goal, and a
     shortest one if no node that was already open is ever given a better score.
     */
    method ShortestPath(d: Distance, start: Point, goal: Point) returns (path: Option<Poly>)
      requires WellFormed(nodes) && Metric(d) && start in nodes && goal in nodes
      ensures path == Answer(Problem(nodes, d, start, goal))
      ensures path.None? <==> !Reachable(nodes, start, goal)
      ensures path.Some? ==> exists hops :: IsTraceOfWalk(Problem(nodes, d, start, goal), path.value, hops)
      ensures path.Some? && RunNeverImproves(Problem(nodes, d, start, goal)) ==>
                forall hops :: IsWalk(nodes, start, hops, goal) ==> Length(d, path.value.points) <= Cost(d, hops)
    {
      ghost var p := Problem(nodes, d, start, goal);
      AnswerSoundAndComplete(p);
      if RunNeverImproves(p) {
        AnswerIsShortest(p);
      }
      path := RunSearch(p, d, start, goal);
    }

    method RunSearch(ghost p: Problem, d: Distance, start: Point, goal: Point) returns (path: Option<Poly>)
      requires p == Problem(nodes, d, start, goal) && ProblemOk(p)
      ensures path == Answer(p)
    {
      InitInv(p);
      var s := State([Item(0.0, start)], {start}, {}, map[start := 0.0], map[]);
      while s.open != {}
        invariant Inv(p, s) && Search(p, s) == Search(p, Init(p))
        decreases nodes.Keys - s.closed
      {
        MirrorsEmpty(s.heap, s.open);
        var x := s.heap[0].node;
        if x == goal {
          var found := ReconstructPath(p, s, d, s.cameFrom, goal);
          return Some(found);
        }
        ghost var next := Step(p, s);
        PopExpanding(p, s);
        EdgesHavePoints(p, x);
        s := s.(heap := s.heap[1..], open := s.open - {x}, closed := s.closed + {x});
        s := ExpandEdges(p, d, goal, x, s);
        assert s == next;
      }
      path := None;
    }

    method ReconstructPath(ghost p: Problem, ghost s: State, d: Distance, cameFrom: map<Point, Back>, node: Point)
      returns (path: Poly)
      requires d == p.d && Metric(d) && Core(p, s) && node in s.g && cameFrom == s.cameFrom
      ensures path == Reconstruct(p, s, node)
      decreases Cheaper(s, node)
    {
      if node in cameFrom {
        BackIsCheaper(p, s, node);
        var back := cameFrom[node];
        var edge := back.edge;
        if First(edge) == node {
          edge := Poly(Reversed(edge.points), edge.name);
        }
        var prefix := ReconstructPath(p, s, d, cameFrom, back.prev);
        path := MergePolys(d, [prefix, edge], 0.0);
      } else {
        path := Poly([], Some(""));
      }
    }

    // ---------- paths through several places ----------

    /** The graph's nodes within the radius of a place, in some order. */
    method NearbyNodes(d: Distance, place: Point, maxRadius: real) returns (nearby: seq<Point>)
      ensures AreNear(Area(nodes, d, maxRadius), place, nearby)
    {
      nearby := [];
      var todo := nodes.Keys;
      while todo != {}
        invariant todo <= nodes.Keys
        invariant forall x :: x in nearby <==> x !in todo && Near(Area(nodes, d, maxRadius), place, x)
      {
        var x :| x in todo;
        todo := todo - {x};
        if d(x, place) < maxRadius {
          nearby := nearby + [x];
        }
      }
    }

    /** One search between two nodes near places. */
    method SearchLeg(d: Distance, ghost a: Area, start: Point, end: Point) returns (path: Option<Poly>)
      requires AreaOk(a) && a.nodes == nodes && a.d == d && start in nodes && end in nodes
      ensures ProblemOk(Problem(nodes, d, start, end)) && path == Answer(Problem(nodes, d, start, end))
    {
      path := ShortestPath(d, start, end);
    }

    method OfferPath(d: Distance, heap: seq<Beams.Entry>, path: Option<Poly>, nextId: nat, keepBestN: int,
                     ghost a: Area, ghost places: seq<Point>, ghost offers: seq<Beams.Entry>)
      returns (r: Beams.Added, nextId': nat, ghost offers': seq<Beams.Entry>)
      requires a.d == d && places != [] && BeamOk(a, places, keepBestN, heap, offers, nextId)
      requires path.Some? && path.value.points != [] ==> Carries(a, places, path.value)
      ensures keepBestN >= 1 ==> r.Heap?
      ensures r.Heap? ==> BeamOk(a, places, keepBestN, r.heap, offers', nextId') && Grown(a, offers, offers')
      ensures r.Heap? && path.Some? && path.value.points != [] ==> OfferedPath(a, offers', path.value)
      ensures forall q :: OfferedPath(a, offers', q) ==> OfferedPath(a, offers, q) || (path == Some(q) && q.points != [])
    {
      nextId', offers' := nextId, offers;
      r := Beams.AddPathToHeap(d, heap, path, nextId, keepBestN);
      if r.Heap? && path.Some? && path.value.points != [] {
        ghost var e := Beams.Entry(Length(d, path.value.points), path.value, nextId);
        OffersExtend(a, places, offers, nextId, path.value);
        OfferAllExtend(offers, e, keepBestN);
        nextId', offers' := nextId + 1, offers + [e];
        forall q | OfferedPath(a, offers, q) || q == path.value
          ensures OfferedPath(a, offers', q)
        {
          OfferedStays(a, offers, e, q);
        }
      }
    }

    method OfferLeg(d: Distance, start: Point, end: Point, heap: seq<Beams.Entry>, id: nat, keepBestN: int,
                    ghost a: Area, ghost places: seq<Point>, ghost offers: seq<Beams.Entry>)
      returns (r: Beams.Added, nextId: nat, ghost offers': seq<Beams.Entry>)
      requires AreaOk(a) && a.nodes == nodes && a.d == d && |places| == 2
      requires BeamOk(a, places, keepBestN, heap, offers, id)
      requires Near(a, places[0], start) && Near(a, places[1], end)
      ensures keepBestN >= 1 ==> r.Heap?
      ensures r.Heap? ==> BeamOk(a, places, keepBestN, r.heap, offers', nextId) && Grown(a, offers, offers')
      ensures r.Heap? ==> CoveredAll(a, offers', start, [end])
      ensures forall q :: OfferedPath(a, offers', q) ==> OfferedPath(a, offers, q) || IsLeg(a, start, end, q)
    {
      var path := SearchLeg(d, a, start, end);
      AnswerCarries(a, places, start, end, path);
      r, nextId, offers' := OfferPath(d, heap, path, id, keepBestN, a, places, offers);
      if r.Heap? {
        AnswerCovered(a, offers', start, end, path);
      }
    }

    /** Searches from one start to every end, and offers what is found to the beam. */
    method LegsFrom(d: Distance, start: Point, ends: seq<Point>, heap: seq<Beams.Entry>, id: nat, keepBestN: int,
                    ghost a: Area, ghost places: seq<Point>, ghost offers: seq<Beams.Entry>)
      returns (r: Beams.Added, nextId: nat, ghost offers': seq<Beams.Entry>)
      requires AreaOk(a) && a.nodes == nodes && a.d == d && |places| == 2
      requires BeamOk(a, places, keepBestN, heap, offers, id)
      requires Near(a, places[0], start) && forall y :: y in ends ==> Near(a, places[1], y)
      ensures keepBestN >= 1 ==> r.Heap?
      ensures r.Heap? ==> BeamOk(a, places, keepBestN, r.heap, offers', nextId) && Grown(a, offers, offers')
      ensures r.Heap? ==> CoveredAll(a, offers', start, ends)
      ensures forall q :: OfferedPath(a, offers', q) ==> OfferedPath(a, offers, q) || LegTo(a, start, ends, q)
    {
      r, nextId, offers' := Beams.Heap(heap), id, offers;
      for j := 0 to |ends|
        invariant r.Heap? && BeamOk(a, places, keepBestN, r.heap, offers', nextId) && Grown(a, offers, offers')
        invariant CoveredAll(a, offers', start, ends[..j])
        invariant forall q :: OfferedPath(a, offers', q) ==> OfferedPath(a, offers, q) || LegTo(a, start, ends, q)
      {
        ghost var before := offers';
        assert ends[j] in ends;
        r, nextId, offers' := OfferLeg(d, start, ends[j], r.heap, nextId, keepBestN, a, places, offers');
        if r.IndexError? {
          return;
        }
        CoveredAllGrown(a, before, offers', start, ends[..j]);
        CoveredAllConcat(a, offers', start, ends[..j], [ends[j]]);
        assert ends[..j + 1] == ends[..j] + [ends[j]];
      }
      assert ends[..|ends|] == ends;
    }

    /** Searches from every start to every end, and offers what is found to the beam. */
    method FirstLegs(d: Distance, starts: seq<Point>, ends: seq<Point>, keepBestN: int, ghost a: Area, ghost places: seq<Point>)
      returns (r: Beams.Added, nextId: nat, ghost offers: seq<Beams.Entry>)
      requires AreaOk(a) && a.nodes == nodes && a.d == d && |places| == 2
      requires AreNear(a, places[0], starts) && AreNear(a, places[1], ends)
      ensures keepBestN >= 1 ==> r.Heap?
      ensures r.Heap? ==> BeamOk(a, places, keepBestN, r.heap, offers, nextId)
      ensures r.Heap? ==> forall x :: x in starts ==> CoveredAll(a, offers, x, ends)
      ensures r.Heap? ==> LegsOffered(a, places[0], places[1], offers)
    {
      r, nextId, offers := Beams.Heap([]), 0, [];
      for i := 0 to |starts|
        invariant r.Heap? && BeamOk(a, places, keepBestN, r.heap, offers, nextId)
        invariant forall q :: OfferedPath(a, offers, q) ==> exists x :: x in starts && LegTo(a, x, ends, q)
        invariant forall x :: x in starts[..i] ==> CoveredAll(a, offers, x, ends)
      {
        ghost var before := offers;
        r, nextId, offers := LegsFrom(d, starts[i], ends, r.heap, nextId, keepBestN, a, places, offers);
        if r.IndexError? {
          return;
        }
        forall x | x in starts[..i]
          ensures CoveredAll(a, offers, x, ends)
        {
          CoveredAllGrown(a, before, offers, x, ends);
        }
        assert starts[..i + 1] == starts[..i] + [starts[i]];
      }
      assert starts[..|starts|] == starts;
      LegsAreOffered(a, places[0], places[1], starts, ends, offers);
    }

    method SegmentBetween(d: Distance, ghost a: Area, cache: map<(Point, Point), Option<Poly>>, start: Point, end: Point)
      returns (seg: Option<Poly>, cache': map<(Point, Point), Option<Poly>>)
      requires AreaOk(a) && a.nodes == nodes && a.d == d && start in nodes && end in nodes && CacheOk(a, cache)
      ensures ProblemOk(Problem(nodes, d, start, end)) && seg == Answer(Problem(nodes, d, start, end))
      ensures CacheOk(a, cache')
    {
      cache' := cache;
      if (start, end) in cache {
        seg := cache[(start, end)];
      } else {
        seg := SearchLeg(d, a, start, end);
        cache' := cache[(start, end) := seg];
      }
    }

    /** Extends one path to one end, and offers the result. */
    method ExtendPath(d: Distance, path: Poly, seg: Option<Poly>, end: Point, heap: seq<Beams.Entry>, id: nat, keepBestN: int,
                      ghost a: Area, ghost places: seq<Point>, ghost place: Point, ghost offers: seq<Beams.Entry>)
      returns (r: Beams.Added, nextId: nat, ghost offers': seq<Beams.Entry>)
      requires AreaOk(a) && a.nodes == nodes && a.d == d && places != [] && Carries(a, places, path) && Near(a, place, end)
      requires Last(path) in nodes ==> seg == Answer(Problem(nodes, d, Last(path), end))
      requires BeamOk(a, places + [place], keepBestN, heap, offers, id)
      ensures keepBestN >= 1 ==> r.Heap?
      ensures r.Heap? ==> BeamOk(a, places + [place], keepBestN, r.heap, offers', nextId) && Grown(a, offers, offers')
      ensures r.Heap? ==> forall q :: OfferedPath(a, offers', q) <==> OfferedPath(a, offers, q) || IsExtension(a, path, end, q)
    {
      CarriesEndsInGraph(a, places, path);
      r, nextId, offers' := Beams.Heap(heap), id, offers;
      if seg.Some? {
        ExtendedCarries(a, places, path, place, end, seg);
        var newPath := MergePolys(d, [path, seg.value], 0.0);
        r, nextId, offers' := OfferPath(d, heap, Some(newPath), id, keepBestN, a, places + [place], offers);
      }
    }

    method ExtendToAll(d: Distance, path: Poly, ends: seq<Point>, heap: seq<Beams.Entry>, id: nat, keepBestN: int,
                       cache: map<(Point, Point), Option<Poly>>,
                       ghost a: Area, ghost places: seq<Point>, ghost place: Point, ghost offers: seq<Beams.Entry>)
      returns (r: Beams.Added, nextId: nat, cache': map<(Point, Point), Option<Poly>>, ghost offers': seq<Beams.Entry>)
      requires AreaOk(a) && a.nodes == nodes && a.d == d && places != [] && Carries(a, places, path)
      requires AreNear(a, place, ends) && CacheOk(a, cache)
      requires BeamOk(a, places + [place], keepBestN, heap, offers, id)
      ensures keepBestN >= 1 ==> r.Heap?
      ensures r.Heap? ==> BeamOk(a, places + [place], keepBestN, r.heap, offers', nextId)
      ensures r.Heap? ==> forall q :: OfferedPath(a, offers', q) <==> OfferedPath(a, offers, q) || ExtensionTo(a, path, ends, q)
      ensures CacheOk(a, cache')
    {
      r, nextId, cache', offers' := Beams.Heap(heap), id, cache, offers;
      for j := 0 to |ends|
        invariant r.Heap? && CacheOk(a, cache') && BeamOk(a, places + [place], keepBestN, r.heap, offers', nextId)
        invariant forall q :: OfferedPath(a, offers', q) <==> OfferedPath(a, offers, q) || ExtensionTo(a, path, ends[..j], q)
      {
        ExtensionToOneMore(a, path, ends, j);
        assert ends[j] in ends;
        r, nextId, cache', offers' := ExtendTo(d, path, ends[j], r.heap, nextId, keepBestN, cache', a, places, place, offers');
        if r.IndexError? {
          return;
        }
      }
      TakeAll(ends);
    }

    method ExtendTo(d: Distance, path: Poly, end: Point, heap: seq<Beams.Entry>, id: nat, keepBestN: int,
                    cache: map<(Point, Point), Option<Poly>>,
                    ghost a: Area, ghost places: seq<Point>, ghost place: Point, ghost offers: seq<Beams.Entry>)
      returns (r: Beams.Added, nextId: nat, cache': map<(Point, Point), Option<Poly>>, ghost offers': seq<Beams.Entry>)
      requires AreaOk(a) && a.nodes == nodes && a.d == d && places != [] && Carries(a, places, path)
      requires Near(a, place, end) && CacheOk(a, cache) && BeamOk(a, places + [place], keepBestN, heap, offers, id)
      ensures keepBestN >= 1 ==> r.Heap?
      ensures r.Heap? ==> BeamOk(a, places + [place], keepBestN, r.heap, offers', nextId)
      ensures r.Heap? ==> forall q :: OfferedPath(a, offers', q) <==> OfferedPath(a, offers, q) || IsExtension(a, path, end, q)
      ensures CacheOk(a, cache')
    {
      CarriesEndsInGraph(a, places, path);
      var seg;
      seg, cache' := SegmentBetween(d, a, cache, Last(path), end);
      r, nextId, offers' := ExtendPath(d, path, seg, end, heap, id, keepBestN, a, places, place, offers);
    }

    /** One step of the beam search: extends every kept path to every node near the next place. */
    method NextLegs(d: Distance, pathsFound: seq<Beams.Entry>, ends: seq<Point>, keepBestN: int,
                    ghost a: Area, ghost places: seq<Point>, ghost place: Point)
      returns (r: Beams.Added, ghost nextId: nat, ghost offers: seq<Beams.Entry>)
      requires AreaOk(a) && a.nodes == nodes && a.d == d && places != []
      requires forall e :: e in pathsFound ==> Carries(a, places, e.path)
      requires AreNear(a, place, ends)
      ensures keepBestN >= 1 ==> r.Heap?
      ensures r.Heap? ==> BeamOk(a, places + [place], keepBestN, r.heap, offers, nextId)
      ensures r.Heap? ==> ExtensionsOffered(a, pathsFound, place, offers)
    {
      var id, cache := 0, map[];
      r, offers, nextId := Beams.Heap([]), [], id;
      for i := 0 to |pathsFound|
        invariant r.Heap? && CacheOk(a, cache) && BeamOk(a, places + [place], keepBestN, r.heap, offers, id)
        invariant forall q :: OfferedPath(a, offers, q) <==>
                    exists p: Beams.Entry :: p in pathsFound[..i] && ExtensionTo(a, p.path, ends, q)
      {
        assert pathsFound[..i + 1] == pathsFound[..i] + [pathsFound[i]];
        assert pathsFound[i] in pathsFound;
        r, id, cache, offers := ExtendToAll(d, pathsFound[i].path, ends, r.heap, id, keepBestN, cache, a, places, place, offers);
        nextId := id;
        if r.IndexError? {
          return;
        }
      }
      nextId := id;
      assert pathsFound[..|pathsFound|] == pathsFound;
      ExtensionsAreOffered(a, pathsFound, place, ends, offers);
    }

    /**
     A path found carries through the given places in order.  It is the best of the last of the beams, each of
     which comes from exactly the extensions of the one before.  With only two places and room for two paths or
     more, it is also as short as every path that the search gives between two nodes near them.
     */
    method FindShortestMultiPointPath(d: Distance, places: seq<Point>, maxRadius: real, keepBestN: int)
      returns (r: MultiPath, ghost beams: seq<seq<Beams.Entry>>)
      requires WellFormed(nodes) && Metric(d) && |places| > 1
      ensures keepBestN >= 1 ==> r.Path?
      ensures r.Path? && r.path.Some? ==> Carries(Area(nodes, d, maxRadius), places, r.path.value)
      ensures keepBestN >= 1 && (exists k :: 0 <= k < |places| && NoneNear(Area(nodes, d, maxRadius), places[k])) ==> r.path.None?
      ensures keepBestN >= 1 && (forall k :: 0 <= k < |places| ==> !NoneNear(Area(nodes, d, maxRadius), places[k])) ==>
                && AreBeams(Area(nodes, d, maxRadius), keepBestN, places, beams)
                && r.path == BestOf(beams[|beams| - 1])
      ensures |places| == 2 && keepBestN >= 1 ==> BestOfTwoPlaces(Area(nodes, d, maxRadius), keepBestN, places[0], places[1], r.path)
    {
      ghost var a := Area(nodes, d, maxRadius);
      beams := [];
      var nearbyPoints := AllNearby(d, places, maxRadius);
      if nearbyPoints.None? {
        assert |places| == 2 ==> NoneNear(a, places[0]) || NoneNear(a, places[1]);
        return Path(None), beams;
      }
      ghost var offers;
      var step;
      step, beams, offers := SearchBeams(d, places, nearbyPoints.value, keepBestN, a);
      if step.IndexError? {
        return IndexError, beams;
      }
      r := Path(BestOf(step.heap));
      if |places| == 2 {
        TwoPlaces(a, places, nearbyPoints.value[0], nearbyPoints.value[1], keepBestN, step.heap, offers);
      }
    }

    /** The nodes near each of the places, or nothing if there are none near one of them. */
    method AllNearby(d: Distance, places: seq<Point>, maxRadius: real) returns (r: Option<seq<seq<Point>>>)
      ensures r.None? <==> exists k :: 0 <= k < |places| && NoneNear(Area(nodes, d, maxRadius), places[k])
      ensures r.Some? ==> |r.value| == |places|
      ensures r.Some? ==>
                forall k :: 0 <= k < |places| ==> AreNear(Area(nodes, d, maxRadius), places[k], r.value[k])
    {
      ghost var a := Area(nodes, d, maxRadius);
      var nearbyPoints: seq<seq<Point>> := [];
      for i := 0 to |places|
        invariant |nearbyPoints| == i
        invariant forall k :: 0 <= k < i ==> AreNear(a, places[k], nearbyPoints[k]) && !NoneNear(a, places[k])
      {
        var nearby := NearbyNodes(d, places[i], maxRadius);
        if nearby == [] {
          assert NoneNear(a, places[i]);
          return None;
        }
        assert nearby[0] in nearby;
        nearbyPoints := nearbyPoints + [nearby];
      }
      r := Some(nearbyPoints);
    }

    /** All steps: the last beam, and with it all beams and the last offers. */
    method SearchBeams(d: Distance, places: seq<Point>, nearbyPoints: seq<seq<Point>>, keepBestN: int, ghost a: Area)
      returns (step: Beams.Added, ghost beams: seq<seq<Beams.Entry>>, ghost offers: seq<Beams.Entry>)
      requires AreaOk(a) && a.nodes == nodes && a.d == d && |places| > 1 && |nearbyPoints| == |places|
      requires forall k {:trigger nearbyPoints[k]} :: 0 <= k < |places| ==> AreNear(a, places[k], nearbyPoints[k])
      ensures keepBestN >= 1 ==> step.Heap?
      ensures step.Heap? ==> BeamsEnd(a, keepBestN, places, beams, step.heap) && LastBeam(a, keepBestN, places, step.heap, offers)
      ensures step.Heap? && |places| == 2 ==> forall x :: x in nearbyPoints[0] ==> CoveredAll(a, offers, x, nearbyPoints[1])
    {
      ghost var nextId;
      assert places[..2][0] == places[0] && places[..2][1] == places[1];
      step, nextId, offers := FirstLegs(d, nearbyPoints[0], nearbyPoints[1], keepBestN, a, places[..2]);
      beams := [];
      if step.IndexError? {
        return;
      }
      FirstStep(a, keepBestN, places, step.heap, offers, nextId);
      step, beams, offers := LaterSteps(d, places, nearbyPoints, step.heap, keepBestN, a, offers, nextId);
    }

    method LaterSteps(d: Distance, places: seq<Point>, nearbyPoints: seq<seq<Point>>, heap: seq<Beams.Entry>, keepBestN: int,
                      ghost a: Area, ghost offers0: seq<Beams.Entry>, ghost id0: nat)
      returns (step: Beams.Added, ghost beams: seq<seq<Beams.Entry>>, ghost offers: seq<Beams.Entry>)
      requires AreaOk(a) && a.nodes == nodes && a.d == d && |places| > 1 && |nearbyPoints| == |places|
      requires forall k {:trigger nearbyPoints[k]} :: 0 <= k < |places| ==> AreNear(a, places[k], nearbyPoints[k])
      requires BeamOk(a, places[..2], keepBestN, heap, offers0, id0) && BeamsEnd(a, keepBestN, places[..2], [heap], heap)
      ensures keepBestN >= 1 ==> step.Heap?
      ensures step.Heap? ==> BeamsEnd(a, keepBestN, places, beams, step.heap) && LastBeam(a, keepBestN, places, step.heap, offers)
      ensures |places| == 2 ==> offers == offers0
    {
      ghost var nextId := id0;
      step, beams, offers := Beams.Heap(heap), [heap], offers0;
      for i := 2 to |places|
        invariant step.Heap? && BeamOk(a, places[..i], keepBestN, step.heap, offers, nextId)
        invariant i == 2 ==> offers == offers0
        invariant BeamsEnd(a, keepBestN, places[..i], beams, step.heap)
      {
        step, nextId, offers, beams := NextStep(d, places, i, nearbyPoints[i], step.heap, keepBestN, a, beams, offers, nextId);
        if step.IndexError? {
          return;
        }
      }
      LastStep(a, keepBestN, places, beams, step.heap, offers, nextId);
    }

    method NextStep(d: Distance, places: seq<Point>, i: nat, ends: seq<Point>, heap: seq<Beams.Entry>, keepBestN: int,
                    ghost a: Area, ghost before: seq<seq<Beams.Entry>>, ghost offers0: seq<Beams.Entry>, ghost id0: nat)
      returns (step: Beams.Added, ghost nextId: nat, ghost offers: seq<Beams.Entry>, ghost beams: seq<seq<Beams.Entry>>)
      requires AreaOk(a) && a.nodes == nodes && a.d == d && 2 <= i < |places| && AreNear(a, places[i], ends)
      requires BeamOk(a, places[..i], keepBestN, heap, offers0, id0) && BeamsEnd(a, keepBestN, places[..i], before, heap)
      ensures keepBestN >= 1 ==> step.Heap?
      ensures step.Heap? ==> BeamOk(a, places[..i + 1], keepBestN, step.heap, offers, nextId)
      ensures step.Heap? ==> BeamsEnd(a, keepBestN, places[..i + 1], beams, step.heap)
    {
      BestCarries(a, places[..i], keepBestN, heap, offers0, id0);
      step, nextId, offers := NextLegs(d, heap, ends, keepBestN, a, places[..i], places[i]);
      beams := before;
      if step.Heap? {
        NextBeamsEnd(a, keepBestN, places, i, before, heap, step.heap, offers, nextId);
        beams := before + [step.heap];
      }
    }
  }

  lemma TwoPlaces(a: Area, places: seq<Point>, starts: seq<Point>, ends: seq<Point>, n: int,
                  heap: seq<Beams.Entry>, offers: seq<Beams.Entry>)
    requires AreaOk(a) && |places| == 2 && AreNear(a, places[0], starts) && AreNear(a, places[1], ends)
    requires forall x :: x in starts ==> CoveredAll(a, offers, x, ends)
    requires LastBeam(a, n, places, heap, offers)
    ensures BestOfTwoPlaces(a, n, places[0], places[1], BestOf(heap))
  {
    forall x, y | Near(a, places[0], x) && Near(a, places[1], y)
      ensures ProblemOk(Problem(a.nodes, a.d, x, y))
      ensures heap == [] ==> x == y || !Reachable(a.nodes, x, y)
      ensures n >= 2 && heap != [] ==> NoBetterPair(a, Length(a.d, Beams.Best(heap).path.points), x, y)
    {
      assert CoveredAll(a, offers, x, ends);
      assert Covered(a, offers, x, y);
      if heap == [] {
        AnswerSoundAndComplete(Problem(a.nodes, a.d, x, y));
      } else if n >= 2 {
        assert Beams.Best(heap) in heap;
        BestOfCovered(a, offers, Beams.Best(heap), x, y);
      }
    }
  }
}
