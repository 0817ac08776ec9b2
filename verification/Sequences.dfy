/** Sequences as lists without repetition, and taking sequences and sets apart by lemmas rather than in the middle of larger proofs. */
module Sequences {
  ghost predicate Distinct<T>(s: seq<T>) {
    forall i, j :: 0 <= i < j < |s| ==> s[i] != s[j]
  }

  function SetOf<T(==)>(s: seq<T>): set<T> {
    set x | x in s
  }

  lemma Snoc<T>(init: seq<T>, e: T)
    ensures (init + [e])[..|init|] == init && (init + [e])[|init|] == e && |init + [e]| == |init| + 1
  {
  }

  lemma SplitLast<T>(s: seq<T>)
    requires s != []
    ensures s == s[..|s| - 1] + [s[|s| - 1]]
  {
  }

  lemma DropNone<T>(s: seq<T>)
    ensures s[0..] == s
  {
  }

  lemma TakeAll<T>(s: seq<T>)
    ensures s[..|s|] == s
  {
  }

  lemma TakeTake<T>(s: seq<T>, j: nat, k: nat)
    requires j <= k <= |s|
    ensures s[..k][..j] == s[..j]
  {
  }

  lemma TakeMore<T>(s: seq<T>, i: nat)
    requires i < |s|
    ensures s[..i + 1] == s[..i] + [s[i]]
  {
  }

  lemma TakeNone<T>(s: seq<T>)
    ensures s[..0] == []
  {
  }

  /** One more member of a set that is being gone through has been seen. */
  lemma OneMoreSeen<T>(all: set<T>, todo: set<T>, seen: set<T>, x: T)
    requires x in todo && todo !! seen && todo + seen == all
    ensures todo - {x} !! seen + {x} && (todo - {x}) + (seen + {x}) == all
  {
  }
}
