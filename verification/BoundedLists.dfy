/** Lists that keep the best few of a stream, in order. */
module BoundedLists {
  import opened Wrappers
  import opened Sequences

  /** An item, and what it is ordered by. */
  datatype Item<T> = Item(rank: real, content: T)

  ghost predicate ByRank<T>(s: seq<Item<T>>) {
    forall i, j :: 0 <= i < j < |s| ==> s[i].rank <= s[j].rank
  }

  /** bisect.insort: after all that rank no higher. */
  function Insert<T>(s: seq<Item<T>>, x: Item<T>): (r: seq<Item<T>>)
    ensures |r| == |s| + 1
  {
    if s == [] || s[|s| - 1].rank <= x.rank then s + [x] else Insert(s[..|s| - 1], x) + [s[|s| - 1]]
  }

  /** All items of the stream in order; those of one rank as they came. */
  function Sort<T>(stream: seq<Item<T>>): (r: seq<Item<T>>)
    ensures |r| == |stream|
  {
    if stream == [] then [] else Insert(Sort(stream[..|stream| - 1]), stream[|stream| - 1])
  }

  function Take<T>(s: seq<T>, n: nat): seq<T> {
    if n < |s| then s[..n] else s
  }

  lemma {:induction false} InsertHolds<T>(s: seq<Item<T>>, x: Item<T>)
    ensures multiset(Insert(s, x)) == multiset(s) + multiset{x}
    decreases |s|
  {
    if s != [] && s[|s| - 1].rank > x.rank {
      InsertHolds(s[..|s| - 1], x);
      assert s == s[..|s| - 1] + [s[|s| - 1]];
    }
  }

  lemma BelowLast<T>(s: seq<Item<T>>)
    requires ByRank(s) && s != []
    ensures forall y :: y in s[..|s| - 1] ==> y.rank <= s[|s| - 1].rank
  {
    forall y | y in s[..|s| - 1]
      ensures y.rank <= s[|s| - 1].rank
    {
      var i :| 0 <= i < |s| - 1 && s[i] == y;
    }
  }

  lemma OrderedSnoc<T>(s: seq<Item<T>>, x: Item<T>)
    requires ByRank(s) && forall y :: y in s ==> y.rank <= x.rank
    ensures ByRank(s + [x])
  {
  }

  lemma {:induction false} InsertInOrder<T>(s: seq<Item<T>>, x: Item<T>)
    requires ByRank(s)
    ensures ByRank(Insert(s, x))
    decreases |s|
  {
    if s == [] {
    } else if s[|s| - 1].rank <= x.rank {
      BelowLast(s);
      assert s == s[..|s| - 1] + [s[|s| - 1]];
      OrderedSnoc(s, x);
    } else {
      var init, last := s[..|s| - 1], s[|s| - 1];
      InsertInOrder(init, x);
      InsertHolds(init, x);
      BelowLast(s);
      forall y | y in Insert(init, x)
        ensures y.rank <= last.rank
      {
        assert y in multiset(Insert(init, x));
        assert y in multiset(init) || y == x;
      }
      OrderedSnoc(Insert(init, x), last);
    }
  }

  lemma {:induction false} SortInOrder<T>(stream: seq<Item<T>>)
    ensures ByRank(Sort(stream)) && multiset(Sort(stream)) == multiset(stream)
    decreases |stream|
  {
    if stream != [] {
      var init, last := stream[..|stream| - 1], stream[|stream| - 1];
      assert stream == init + [last];
      SortInOrder(init);
      InsertInOrder(Sort(init), last);
      InsertHolds(Sort(init), last);
    }
  }

  /** The items of a rank, in their order. */
  function OfRank<T>(s: seq<Item<T>>, rank: real): seq<Item<T>> {
    if s == [] then []
    else OfRank(s[..|s| - 1], rank) + if s[|s| - 1].rank == rank then [s[|s| - 1]] else []
  }

  lemma OfRankSnoc<T>(s: seq<Item<T>>, x: Item<T>, rank: real)
    ensures OfRank(s + [x], rank) == OfRank(s, rank) + if x.rank == rank then [x] else []
  {
    Snoc(s, x);
  }

  lemma {:induction false} InsertIsStable<T>(s: seq<Item<T>>, x: Item<T>, rank: real)
    ensures OfRank(Insert(s, x), rank) == OfRank(s + [x], rank)
    decreases |s|
  {
    OfRankSnoc(s, x, rank);
    if s != [] && s[|s| - 1].rank > x.rank {
      var init, z := s[..|s| - 1], s[|s| - 1];
      InsertIsStable(init, x, rank);
      OfRankSnoc(init, x, rank);
      OfRankSnoc(Insert(init, x), z, rank);
    }
  }

  /** Items of one rank stay in the order of the stream. */
  lemma {:induction false} SortIsStable<T>(stream: seq<Item<T>>, rank: real)
    ensures OfRank(Sort(stream), rank) == OfRank(stream, rank)
    decreases |stream|
  {
    if stream != [] {
      var init, x := stream[..|stream| - 1], stream[|stream| - 1];
      SortIsStable(init, rank);
      InsertIsStable(Sort(init), x, rank);
      OfRankSnoc(Sort(init), x, rank);
    }
  }

  /** Of an ordered list, only the first n matter for the first n after an insertion. */
  lemma {:induction false} TakeInsert<T>(s: seq<Item<T>>, x: Item<T>, n: nat)
    requires ByRank(s)
    ensures Take(Insert(s, x), n) == Take(Insert(Take(s, n), x), n)
    decreases |s|
  {
    if n < |s| {
      var init, last := s[..|s| - 1], s[|s| - 1];
      assert Take(init, n) == Take(s, n);
      if last.rank <= x.rank {
        AfterAll(Take(s, n), x);
      } else {
        TakeInsert(init, x, n);
        assert Take(Insert(init, x) + [last], n) == Take(Insert(init, x), n);
      }
    }
  }

  lemma AfterAll<T>(s: seq<Item<T>>, x: Item<T>)
    requires forall y :: y in s ==> y.rank <= x.rank
    ensures Insert(s, x) == s + [x]
  {
    assert s != [] ==> s[|s| - 1] in s;
  }

  /** The first n in order: nothing that is left out ranks before one of them. */
  ghost predicate AreBest<T(!new)>(stream: seq<Item<T>>, n: nat, kept: seq<Item<T>>, dropped: seq<Item<T>>) {
    && multiset(kept) + multiset(dropped) == multiset(stream)
    && |kept| == (if n < |stream| then n else |stream|)
    && ByRank(kept) && forall x, y :: x in kept && y in dropped ==> x.rank <= y.rank
  }

  lemma TakenAreBest<T(!new)>(stream: seq<Item<T>>, n: nat)
    ensures AreBest(stream, n, Take(Sort(stream), n), Sort(stream)[|Take(Sort(stream), n)|..])
  {
    var s := Sort(stream);
    SortInOrder(stream);
    var k := |Take(s, n)|;
    assert s == s[..k] + s[k..] && Take(s, n) == s[..k];
  }

  /** Inserting into what has been kept, and dropping the last if that is too much, keeps the best. */
  lemma KeepBest<T>(stream: seq<Item<T>>, e: Item<T>, n: nat)
    ensures var r := Insert(Take(Sort(stream), n), e);
            Take(Sort(stream + [e]), n) == if |stream| + 1 > n then r[..|r| - 1] else r
  {
    assert (stream + [e])[..|stream|] == stream;
    SortInOrder(stream);
    TakeInsert(Sort(stream), e, n);
  }

  // ---------- the problems of one type ----------

  class BoundedProblemList<T(!new)> {
    const sizeBound: nat
    /** Whether problems of this type can be compared. */
    const comparable: bool
    var count: nat
    var exceptions: seq<Item<T>>

    constructor (sizeBound: nat, comparable: bool)
      ensures this.sizeBound == sizeBound && this.comparable == comparable && Holds([])
    {
      this.sizeBound, this.comparable := sizeBound, comparable;
      count, exceptions := 0, [];
    }

    /** The state after a stream: its most significant problems, or where they cannot be compared its first ones. */
    ghost predicate Holds(stream: seq<Item<T>>)
      reads this
    {
      count == |stream| && exceptions == Take(if comparable then Sort(stream) else stream, sizeBound)
    }

    method Add(e: Item<T>, ghost stream: seq<Item<T>>)
      requires Holds(stream)
      modifies this
      ensures Holds(stream + [e])
    {
      count := count + 1;
      KeepBest(stream, e, sizeBound);
      if exceptions == [] || comparable {
        exceptions := Insert(exceptions, e);
        if count > sizeBound {
          exceptions := exceptions[..|exceptions| - 1];
        }
      } else if count <= sizeBound {
        exceptions := exceptions + [e];
      }
    }

    method DroppedCount(ghost stream: seq<Item<T>>) returns (dropped: nat)
      requires Holds(stream)
      ensures dropped == if sizeBound < |stream| then |stream| - sizeBound else 0
    {
      dropped := count - |exceptions|;
    }
  }

  /** What the list holds is the best of its stream. */
  lemma HoldsBest<T(!new)>(list: BoundedProblemList<T>, stream: seq<Item<T>>) returns (dropped: seq<Item<T>>)
    requires list.comparable && list.Holds(stream)
    ensures AreBest(stream, list.sizeBound, list.exceptions, dropped) && |dropped| == list.count - |list.exceptions|
  {
    TakenAreBest(stream, list.sizeBound);
    dropped := Sort(stream)[|Take(Sort(stream), list.sizeBound)|..];
  }

  // ---------- the nearest stops ----------

  /** The n nearest stops, nearest first; for n below one there is no last stop to compare with. */
  method GetNearestStops<T>(stops: seq<Item<T>>, n: int) returns (r: Option<seq<Item<T>>>)
    ensures r.None? <==> n <= 0 && stops != []
    ensures r.Some? && n >= 0 ==> r.value == Take(Sort(stops), n)
  {
    var list: seq<Item<T>> := [];
    for i := 0 to |stops|
      invariant i > 0 ==> n > 0
      invariant n > 0 ==> list == Take(Sort(stops[..i]), n)
      invariant i == 0 ==> list == []
    {
      var s := stops[i];
      if n <= 0 {
        return None;
      }
      assert stops[..i + 1] == stops[..i] + [s];
      KeepBest(stops[..i], s, n);
      if |list| < n {
        list := Insert(list, s);
      } else if s.rank < list[|list| - 1].rank {
        list := Insert(list, s);
        list := list[..|list| - 1];
      }
    }
    assert stops[..|stops|] == stops;
    r := Some(list);
  }
}
