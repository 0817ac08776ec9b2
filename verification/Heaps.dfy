/** The open heap of the search: a priority queue of (estimate, node) pairs, least pair first. */
module Heaps {
  import opened Polylines

  datatype Item = Item(f: real, node: Point)

  predicate ItemLess(a: Item, b: Item) {
    a.f < b.f || (a.f == b.f && PointLess(a.node, b.node))
  }

  /** Inserts into an ordered sequence; the least item is always at index 0. */
  function Push(heap: seq<Item>, item: Item): seq<Item> {
    if heap == [] || ItemLess(item, heap[0]) then [item] + heap else [heap[0]] + Push(heap[1..], item)
  }

  ghost predicate Ordered(heap: seq<Item>) {
    forall i, j :: 0 <= i < j < |heap| ==> heap[i].f <= heap[j].f
  }

  /** No item comes before one that is less, by its key and for equal keys by its node. */
  ghost predicate InTupleOrder(heap: seq<Item>) {
    forall i, j :: 0 <= i < j < |heap| ==> !ItemLess(heap[j], heap[i])
  }

  /** Popping takes a least pair, and pushing keeps it that way. */
  lemma {:induction false} PushInTupleOrder(heap: seq<Item>, item: Item)
    requires InTupleOrder(heap)
    ensures InTupleOrder(Push(heap, item))
    ensures forall it :: it in Push(heap, item) <==> it in heap || it == item
    decreases |heap|
  {
    if heap != [] && !ItemLess(item, heap[0]) {
      var rest := Push(heap[1..], item);
      PushInTupleOrder(heap[1..], item);
      forall i | 0 <= i < |rest|
        ensures !ItemLess(rest[i], heap[0])
      {
        assert rest[i] in rest;
      }
    } else if heap != [] {
      forall i | 0 <= i < |heap|
        ensures !ItemLess(heap[i], item)
      {
      }
    }
  }

  ghost predicate Holds(heap: seq<Item>, y: Point) {
    exists i :: 0 <= i < |heap| && heap[i].node == y
  }

  /** The heap holds exactly the nodes of open, each once, in order. */
  ghost predicate Mirrors(heap: seq<Item>, open: set<Point>) {
    && Ordered(heap)
    && (forall i, j :: 0 <= i < j < |heap| ==> heap[i].node != heap[j].node)
    && (forall i :: 0 <= i < |heap| ==> heap[i].node in open)
    && (forall y :: y in open ==> Holds(heap, y))
  }

  /** Push puts the new item at one place of the heap, and keeps the heap ordered. */
  lemma {:induction false} PushPlace(heap: seq<Item>, item: Item) returns (k: nat)
    requires Ordered(heap)
    ensures k <= |heap| && Push(heap, item) == heap[..k] + [item] + heap[k..]
    ensures Ordered(Push(heap, item))
    decreases |heap|
  {
    if heap == [] || ItemLess(item, heap[0]) {
      k := 0;
    } else {
      var k' := PushPlace(heap[1..], item);
      k := k' + 1;
      assert [heap[0]] + heap[1..][..k'] == heap[..k] && heap[1..][k'..] == heap[k..];
    }
  }

  lemma {:induction false} PushMembers(heap: seq<Item>, item: Item, it: Item)
    ensures it in Push(heap, item) ==> it == item || it in heap
  {
    if heap != [] && !ItemLess(item, heap[0]) {
      PushMembers(heap[1..], item, it);
    }
  }

  lemma PushMirrors(heap: seq<Item>, open: set<Point>, item: Item)
    requires Mirrors(heap, open) && item.node !in open
    ensures Mirrors(Push(heap, item), open + {item.node})
  {
    var k := PushPlace(heap, item);
    InsertMirrors(heap, open, item, k, Push(heap, item));
  }

  lemma InsertMirrors(heap: seq<Item>, open: set<Point>, item: Item, k: nat, r: seq<Item>)
    requires Mirrors(heap, open) && item.node !in open
    requires k <= |heap| && r == heap[..k] + [item] + heap[k..] && Ordered(r)
    ensures Mirrors(r, open + {item.node})
  {
    forall i | 0 <= i < |r|
      ensures r[i] == if i < k then heap[i] else if i == k then item else heap[i - 1]
    {
    }
    InsertHolds(heap, open, item, k, r);
    InsertDiffers(heap, open, item, k, r);
  }

  lemma InsertHolds(heap: seq<Item>, open: set<Point>, item: Item, k: nat, r: seq<Item>)
    requires k <= |heap| && |r| == |heap| + 1
    requires forall i {:trigger r[i]} :: 0 <= i < |r| ==> r[i] == if i < k then heap[i] else if i == k then item else heap[i - 1]
    requires forall y :: y in open ==> Holds(heap, y)
    ensures forall y :: y in open + {item.node} ==> Holds(r, y)
  {
    forall y | y in open + {item.node}
      ensures Holds(r, y)
    {
      if y == item.node {
        assert r[k].node == y;
      } else {
        var i :| 0 <= i < |heap| && heap[i].node == y;
        assert r[if i < k then i else i + 1].node == y;
      }
    }
  }

  lemma InsertDiffers(heap: seq<Item>, open: set<Point>, item: Item, k: nat, r: seq<Item>)
    requires k <= |heap| && |r| == |heap| + 1 && item.node !in open
    requires forall i {:trigger r[i]} :: 0 <= i < |r| ==> r[i] == if i < k then heap[i] else if i == k then item else heap[i - 1]
    requires forall i, j :: 0 <= i < j < |heap| ==> heap[i].node != heap[j].node
    requires forall i :: 0 <= i < |heap| ==> heap[i].node in open
    ensures forall i, j :: 0 <= i < j < |r| ==> r[i].node != r[j].node
    ensures forall i :: 0 <= i < |r| ==> r[i].node in open + {item.node}
  {
  }

  lemma PopMirrors(heap: seq<Item>, open: set<Point>)
    requires Mirrors(heap, open) && heap != []
    ensures Mirrors(heap[1..], open - {heap[0].node})
  {
    forall y | y in open - {heap[0].node}
      ensures Holds(heap[1..], y)
    {
      var i :| 0 <= i < |heap| && heap[i].node == y;
      assert heap[1..][i - 1].node == y;
    }
  }

  lemma MirrorsEmpty(heap: seq<Item>, open: set<Point>)
    requires Mirrors(heap, open)
    ensures heap == [] <==> open == {}
  {
    if heap != [] {
      assert heap[0].node in open;
    }
    if open != {} {
      var y :| y in open;
      assert Holds(heap, y);
    }
  }
}
