/**
 The beam of find_shortest_multi_point_path: a heap of at most n paths, longest on top, into which a
 newcomer is always admitted by replacing the top.
 */
module Beams {
  import opened Wrappers
  import opened Polylines
  import opened Sequences

  /** A path with its length and the identity of the polyline object, which breaks ties. */
  datatype Entry = Entry(length: real, path: Poly, id: nat)

  /** The heap's order: longer paths first. */
  predicate Before(a: Entry, b: Entry) {
    a.length > b.length || (a.length == b.length && a.id < b.id)
  }

  /** A priority queue kept as an ordered sequence: the heap's top at index 0, a shortest path last. */
  function Push(heap: seq<Entry>, e: Entry): (r: seq<Entry>)
    ensures |r| == |heap| + 1
  {
    if heap == [] || Before(e, heap[0]) then [e] + heap else [heap[0]] + Push(heap[1..], e)
  }

  /** The effect of offering e to a heap that keeps n paths. */
  function Offer(heap: seq<Entry>, e: Entry, n: nat): seq<Entry>
    requires n >= 1
  {
    if e in heap then heap
    else if |heap| < n then Push(heap, e)
    else Push(heap[1..], e)
  }

  function OfferAll(offers: seq<Entry>, n: nat): seq<Entry>
    requires n >= 1
  {
    if offers == [] then [] else Offer(OfferAll(offers[..|offers| - 1], n), offers[|offers| - 1], n)
  }

  datatype Added = Heap(heap: seq<Entry>) | IndexError

  /** _add_path_to_heap: nothing happens for no path or an empty one; replacing in an empty heap is an error. */
  method AddPathToHeap(d: Distance, heap: seq<Entry>, path: Option<Poly>, id: nat, keepBestN: int) returns (r: Added)
    ensures path.None? || path.value.points == [] ==> r == Heap(heap)
    ensures path.Some? && path.value.points != [] ==>
              var e := Entry(Length(d, path.value.points), path.value, id);
              && (r.IndexError? <==> heap == [] && keepBestN <= 0)
              && (keepBestN >= 1 ==> r == Heap(Offer(heap, e, keepBestN)))
  {
    r := Heap(heap);
    if path.Some? && path.value.points != [] {
      var length := LengthMeters(d, path.value);
      var newItem := Entry(length, path.value, id);
      if newItem !in heap {
        if |heap| < keepBestN {
          r := Heap(Push(heap, newItem));
        } else if heap == [] {
          r := IndexError;
        } else {
          r := Heap(Push(heap[1..], newItem));
        }
      }
    }
  }

  // ---------- what the heap holds ----------

  /** All offers, longest first. */
  function Sorted(offers: seq<Entry>): (r: seq<Entry>)
    ensures |r| == |offers|
  {
    if offers == [] then [] else Push(Sorted(offers[..|offers| - 1]), offers[|offers| - 1])
  }

  ghost predicate IsOrdered(s: seq<Entry>) {
    forall i, j :: 0 <= i < j < |s| ==> Before(s[i], s[j])
  }

  ghost predicate DistinctIds(offers: seq<Entry>) {
    forall i, j :: 0 <= i < j < |offers| ==> offers[i].id != offers[j].id
  }

  lemma {:induction false} PushMembers(s: seq<Entry>, e: Entry)
    ensures multiset(Push(s, e)) == multiset(s) + multiset{e}
  {
    if s != [] && !Before(e, s[0]) {
      PushMembers(s[1..], e);
      assert s == [s[0]] + s[1..];
    }
  }

  lemma {:induction false} PushOrdered(s: seq<Entry>, e: Entry)
    requires IsOrdered(s) && forall i :: 0 <= i < |s| ==> s[i].id != e.id
    ensures IsOrdered(Push(s, e))
  {
    if s != [] && !Before(e, s[0]) {
      PushOrdered(s[1..], e);
      PushMembers(s[1..], e);
      var t := Push(s[1..], e);
      forall i | 0 <= i < |t|
        ensures Before(s[0], t[i])
      {
        assert t[i] in multiset(t);
        assert t[i] == e || t[i] in s[1..];
      }
    }
  }

  lemma {:induction false} SortedOrdered(offers: seq<Entry>)
    requires DistinctIds(offers)
    ensures IsOrdered(Sorted(offers)) && multiset(Sorted(offers)) == multiset(offers)
  {
    if offers != [] {
      var init, e := offers[..|offers| - 1], offers[|offers| - 1];
      assert offers == init + [e];
      SortedOrdered(init);
      PushMembers(Sorted(init), e);
      forall i | 0 <= i < |Sorted(init)|
        ensures Sorted(init)[i].id != e.id
      {
        assert Sorted(init)[i] in multiset(init);
      }
      PushOrdered(Sorted(init), e);
    }
  }

  lemma PushAfterDropOne(s: seq<Entry>, e: Entry)
    requires IsOrdered(s) && s != []
    ensures Push(s, e)[2..] == Push(s[1..], e)[1..]
  {
    var t := s[1..];
    if Before(e, s[0]) {
      if t != [] {
        assert t[0] == s[1] && Before(s[0], s[1]);
      }
      assert Push(t, e) == [e] + t;
      assert Push(s, e) == [e] + s;
      assert ([e] + s)[2..] == t;
    } else {
      assert Push(s, e) == [s[0]] + Push(t, e);
    }
  }

  /** Dropping j paths before a newcomer enters, or j more afterwards, leaves the same best paths. */
  lemma {:induction false} PushAfterDrop(s: seq<Entry>, e: Entry, j: nat)
    requires IsOrdered(s) && j <= |s|
    ensures Push(s, e)[j + 1..] == Push(s[j..], e)[1..]
    decreases j
  {
    if j == 0 {
      assert s[0..] == s;
    } else {
      var t := s[1..];
      var r, r' := Push(s, e), Push(t, e);
      PushAfterDrop(t, e, j - 1);
      PushAfterDropOne(s, e);
      assert t[j - 1..] == s[j..];
      assert r[j + 1..] == r[2..][j - 1..];
      assert r'[j..] == r'[1..][j - 1..];
    }
  }

  /** The n-1 shortest of the earlier offers, with the last one. */
  function BestWithLast(init: seq<Entry>, e: Entry, n: nat): seq<Entry>
    requires 1 <= n <= |init| + 1
  {
    Push(Sorted(init)[|init| - (n - 1)..], e)
  }

  /**
   Exactly what the heap holds after offers of different paths: all of them while there are fewer than n,
   and from then on the n-1 shortest of all but the last offer, together with the last offer.
   */
  function Kept(offers: seq<Entry>, n: nat): seq<Entry>
    requires n >= 1
  {
    if |offers| < n then Sorted(offers) else BestWithLast(offers[..|offers| - 1], offers[|offers| - 1], n)
  }

  lemma SortedForm(init: seq<Entry>, e: Entry)
    ensures Sorted(init + [e]) == Push(Sorted(init), e)
  {
    Snoc(init, e);
  }

  /** As long as there is room, all offers are kept. */
  lemma KeptAll(offers: seq<Entry>, n: nat)
    requires n >= 1 && |offers| <= n
    ensures Kept(offers, n) == Sorted(offers)
  {
    if |offers| == n {
      var init, e := offers[..n - 1], offers[n - 1];
      DropNone(Sorted(init));
      SplitLast(offers);
      SortedForm(init, e);
    }
  }

  lemma KeptForm(init: seq<Entry>, e: Entry, n: nat)
    requires 1 <= n <= |init| + 1
    ensures Kept(init + [e], n) == BestWithLast(init, e, n)
  {
    Snoc(init, e);
  }

  lemma KeptStep(init: seq<Entry>, x: Entry, e: Entry, n: nat)
    requires DistinctIds(init) && 1 <= n <= |init| + 1
    ensures Kept(init + [x], n) != [] && Kept(init + [x] + [e], n) == Push(Kept(init + [x], n)[1..], e)
  {
    var j := |init| - (n - 1);
    SortedOrdered(init);
    PushAfterDrop(Sorted(init), x, j);
    KeptForm(init, x, n);
    KeptForm(init + [x], e, n);
    SortedForm(init, x);
  }

  lemma {:induction false} HeapIsKept(offers: seq<Entry>, n: nat)
    requires n >= 1 && DistinctIds(offers)
    ensures OfferAll(offers, n) == Kept(offers, n)
    decreases |offers|
  {
    if offers != [] {
      var m := |offers| - 1;
      var init, e := offers[..m], offers[m];
      SplitLast(offers);
      HeapIsKept(init, n);
      KeptWereOffered(init, n);
      assert e !in init;
      KeptSize(init, n);
      if m >= n {
        FullStep(init, e, n);
      }
    }
  }

  lemma FullStep(init: seq<Entry>, e: Entry, n: nat)
    requires 1 <= n <= |init| && DistinctIds(init)
    ensures Kept(init, n) != [] && Kept(init + [e], n) == Push(Kept(init, n)[1..], e)
  {
    var m := |init| - 1;
    SplitLast(init);
    KeptStep(init[..m], init[m], e, n);
  }

  lemma KeptSize(offers: seq<Entry>, n: nat)
    requires n >= 1
    ensures |Kept(offers, n)| == if |offers| <= n then |offers| else n
  {
  }

  lemma {:induction false} KeptWereOffered(offers: seq<Entry>, n: nat)
    requires n >= 1
    ensures |OfferAll(offers, n)| <= n
    ensures forall x :: x in OfferAll(offers, n) ==> x in offers
    decreases |offers|
  {
    if offers != [] {
      var init, e := offers[..|offers| - 1], offers[|offers| - 1];
      KeptWereOffered(init, n);
      var heap := OfferAll(init, n);
      PushMembers(heap, e);
      if heap != [] {
        PushMembers(heap[1..], e);
      }
      forall x | x in OfferAll(offers, n)
        ensures x in offers
      {
        assert x in multiset(OfferAll(offers, n));
        assert x == e || x in heap;
      }
    }
  }

  /** Of an ordered sequence, what lies beyond place k is no longer than what lies before it. */
  lemma TailIsShorter(s: seq<Entry>, k: nat, o: Entry)
    requires IsOrdered(s) && k <= |s| && o in s && o !in s[k..]
    ensures forall b :: b in s[k..] ==> b.length <= o.length
  {
    var i :| 0 <= i < |s| && s[i] == o;
    assert forall j :: k <= j < |s| ==> s[j] == s[k..][j - k] && s[j] in s[k..];
    forall b | b in s[k..]
      ensures b.length <= o.length
    {
      var j :| 0 <= j < |s[k..]| && s[k..][j] == b;
      assert Before(s[i], s[k + j]);
    }
  }

  lemma InSorted(offers: seq<Entry>, o: Entry)
    requires DistinctIds(offers) && o in offers
    ensures o in Sorted(offers)
  {
    SortedOrdered(offers);
    assert o in multiset(Sorted(offers));
  }

  lemma InPush(s: seq<Entry>, e: Entry, o: Entry)
    ensures o in Push(s, e) <==> o in s || o == e
  {
    PushMembers(s, e);
    assert o in Push(s, e) <==> o in multiset(Push(s, e));
    assert o in s <==> o in multiset(s);
  }

  /** An offer that has been dropped leaves at least n-1 kept paths behind that are no longer. */
  lemma DroppedIsBeaten(offers: seq<Entry>, n: nat, o: Entry) returns (best: seq<Entry>)
    requires n >= 1 && DistinctIds(offers) && o in offers && o !in OfferAll(offers, n)
    ensures |best| == n - 1 && DistinctIds(best)
    ensures forall b :: b in best ==> b in OfferAll(offers, n) && b.length <= o.length
  {
    HeapIsKept(offers, n);
    InSorted(offers, o);
    var m := |offers| - 1;
    var init, e := offers[..m], offers[m];
    SplitLast(offers);
    if |offers| <= n {
      KeptAll(offers, n);
    }
    KeptForm(init, e, n);
    best := BeatenBy(init, e, m - (n - 1), o);
  }

  lemma BeatenBy(init: seq<Entry>, e: Entry, k: nat, o: Entry) returns (best: seq<Entry>)
    requires DistinctIds(init) && k <= |init| && (o in init || o == e) && o !in Push(Sorted(init)[k..], e)
    ensures |best| == |init| - k && DistinctIds(best)
    ensures forall b :: b in best ==> b in Push(Sorted(init)[k..], e) && b.length <= o.length
  {
    var s := Sorted(init);
    best := s[k..];
    forall b
      ensures b in Push(best, e) <==> b in best || b == e
    {
      InPush(best, e, b);
    }
    InSorted(init, o);
    SortedOrdered(init);
    TailIsShorter(s, k, o);
    DistinctIfOrdered(init, s, k);
  }

  lemma DistinctIfOrdered(offers: seq<Entry>, s: seq<Entry>, k: nat)
    requires DistinctIds(offers) && s == Sorted(offers) && k <= |s|
    ensures DistinctIds(s) && DistinctIds(s[k..])
  {
    SortedOrdered(offers);
    forall i, j | 0 <= i < j < |s|
      ensures s[i].id != s[j].id
    {
      assert Before(s[i], s[j]);
      assert s[i] in multiset(offers) && s[j] in multiset(offers);
    }
  }

  ghost predicate NoneShorter(e: Entry, offers: seq<Entry>) {
    forall o :: o in offers ==> e.length <= o.length
  }

  /** max(paths_found): the last of the ordered heap. */
  function Best(heap: seq<Entry>): Entry
    requires heap != []
  {
    heap[|heap| - 1]
  }

  /** With room for two or more, the best path kept is as short as every path ever offered. */
  lemma BestOfTwoOrMore(offers: seq<Entry>, n: nat)
    requires n >= 2 && DistinctIds(offers) && offers != []
    ensures OfferAll(offers, n) != [] && Best(OfferAll(offers, n)) in offers
    ensures NoneShorter(Best(OfferAll(offers, n)), offers)
  {
    var heap := OfferAll(offers, n);
    HeapIsKept(offers, n);
    KeptSize(offers, n);
    KeptWereOffered(offers, n);
    KeptOrdered(offers, n);
    LastIsShortest(heap);
    assert Best(heap) in heap;
    forall o | o in offers
      ensures Best(heap).length <= o.length
    {
      if o !in heap {
        var best := DroppedIsBeaten(offers, n, o);
        assert best[0] in best;
      }
    }
  }

  lemma TailWasOffered(offers: seq<Entry>, k: nat)
    requires DistinctIds(offers) && k <= |offers|
    ensures IsOrdered(Sorted(offers)[k..])
    ensures forall x :: x in Sorted(offers)[k..] ==> x in offers
  {
    SortedOrdered(offers);
    forall x | x in Sorted(offers)[k..]
      ensures x in offers
    {
      assert x in multiset(Sorted(offers));
    }
  }

  lemma PushedTailOrdered(init: seq<Entry>, k: nat, e: Entry)
    requires DistinctIds(init + [e]) && k <= |init|
    ensures IsOrdered(Push(Sorted(init)[k..], e))
  {
    var offers := init + [e];
    forall i | 0 <= i < |init|
      ensures init[i].id != e.id
    {
      assert offers[i] == init[i] && offers[|init|] == e;
    }
    assert forall i :: 0 <= i < |init| ==> offers[i] == init[i];
    TailWasOffered(init, k);
    var tail := Sorted(init)[k..];
    forall i | 0 <= i < |tail|
      ensures tail[i].id != e.id
    {
      assert tail[i] in init;
    }
    PushOrdered(tail, e);
  }

  lemma KeptOrdered(offers: seq<Entry>, n: nat)
    requires n >= 1 && DistinctIds(offers)
    ensures IsOrdered(Kept(offers, n))
  {
    if |offers| > n {
      var m := |offers| - 1;
      SplitLast(offers);
      PushedTailOrdered(offers[..m], m - (n - 1), offers[m]);
    } else {
      SortedOrdered(offers);
    }
  }

  lemma LastIsShortest(heap: seq<Entry>)
    requires IsOrdered(heap) && heap != []
    ensures NoneShorter(Best(heap), heap)
  {
    forall o | o in heap
      ensures Best(heap).length <= o.length
    {
      var i :| 0 <= i < |heap| && heap[i] == o;
    }
  }

  /** With room for one only, whatever was offered last is kept. */
  lemma OnlyLastKept(offers: seq<Entry>)
    requires DistinctIds(offers) && offers != []
    ensures OfferAll(offers, 1) == [offers[|offers| - 1]]
  {
    HeapIsKept(offers, 1);
    if |offers| == 1 {
      assert offers[..0] == [];
    }
  }

  ghost predicate KeepsShortest(n: nat)
    requires n >= 1
  {
    forall offers :: DistinctIds(offers) && offers != [] ==>
      OfferAll(offers, n) != [] && NoneShorter(Best(OfferAll(offers, n)), offers)
  }

  /** The beam always keeps a shortest offer if and only if it has room for more than one. */
  lemma KeepsShortestIff(n: nat)
    requires n >= 1
    ensures KeepsShortest(n) <==> n >= 2
  {
    if n >= 2 {
      forall offers | DistinctIds(offers) && offers != []
        ensures OfferAll(offers, n) != [] && NoneShorter(Best(OfferAll(offers, n)), offers)
      {
        BestOfTwoOrMore(offers, n);
      }
    } else {
      var short, long := Entry(1.0, Poly([], None), 0), Entry(2.0, Poly([], None), 1);
      OnlyLastKept([short, long]);
      assert short in [short, long];
      assert !NoneShorter(long, [short, long]);
    }
  }
}
