/**
 Which entity of which table becomes which entity of the merged table.

 A table is a dictionary from ids, so within a table an id stands for one entity.  Entities with an id that
 both tables have are merged if they can be; all others are carried over, under a fresh id where the other
 table has their id.
 */
module SameId {
  import opened Wrappers
  import opened Ids
  import opened Sequences

  /** One registration: the old entity, the new one, or both of the same id, and the id of the outcome. */
  datatype Entry =
    | Both(id: string)
    | OnlyOld(id: string, out: string)
    | OnlyNew(id: string, out: string)

  function OutId(e: Entry): string {
    match e
    case Both(id) => id
    case OnlyOld(_, out) => out
    case OnlyNew(_, out) => out
  }

  /** The ids of s that are in keep, or those that are not. */
  function Filter(s: seq<string>, keep: set<string>, wanted: bool): (r: seq<string>)
    ensures forall x :: x in r <==> x in s && (x in keep) == wanted
  {
    if s == [] then []
    else
      var init, x := s[..|s| - 1], s[|s| - 1];
      assert forall y :: y in s <==> y in init || y == x;
      if (x in keep) == wanted then Filter(init, keep, wanted) + [x] else Filter(init, keep, wanted)
  }

  lemma FilterNone(keep: set<string>, wanted: bool)
    ensures Filter([], keep, wanted) == []
  {
  }

  lemma FilterSnoc(s: seq<string>, x: string, keep: set<string>, wanted: bool)
    ensures Filter(s + [x], keep, wanted) == Filter(s, keep, wanted) + if (x in keep) == wanted then [x] else []
  {
    Snoc(s, x);
  }

  lemma FilterStep(s: seq<string>, keep: set<string>, wanted: bool, i: nat)
    requires i < |s|
    ensures Filter(s[..i + 1], keep, wanted) == Filter(s[..i], keep, wanted) + if (s[i] in keep) == wanted then [s[i]] else []
  {
    TakeMore(s, i);
    FilterSnoc(s[..i], s[i], keep, wanted);
  }

  lemma {:induction false} FilterSplits(s: seq<string>, keep: set<string>)
    ensures multiset(Filter(s, keep, true)) + multiset(Filter(s, keep, false)) == multiset(s)
    ensures |Filter(s, keep, true)| + |Filter(s, keep, false)| == |s|
  {
    if s != [] {
      FilterSplits(s[..|s| - 1], keep);
      assert s == s[..|s| - 1] + [s[|s| - 1]];
    }
  }

  lemma {:induction false} FilterDistinct(s: seq<string>, keep: set<string>, wanted: bool)
    requires Distinct(s)
    ensures Distinct(Filter(s, keep, wanted))
  {
    if s != [] {
      FilterDistinct(s[..|s| - 1], keep, wanted);
      assert s[|s| - 1] !in Filter(s[..|s| - 1], keep, wanted);
    }
  }

  // ---------- the plan of a merge ----------

  /** The ids whose entities are merged; ok are the shared ids whose entities can be. */
  function Merged(a: seq<string>, b: seq<string>, ok: set<string>): seq<string> {
    Filter(a, SetOf(b) * ok, true)
  }

  function NotMergedA(a: seq<string>, b: seq<string>, ok: set<string>): seq<string> {
    Filter(a, SetOf(b) * ok, false)
  }

  /** First the new entities that failed to merge, in the order of the old table, then those on their own. */
  function NotMergedB(a: seq<string>, b: seq<string>, ok: set<string>): seq<string> {
    Filter(NotMergedA(a, b, ok), SetOf(b), true) + Filter(b, SetOf(a), false)
  }

  function Boths(ids: seq<string>): seq<Entry> {
    seq(|ids|, i requires 0 <= i < |ids| => Both(ids[i]))
  }

  /** How many fresh ids carrying over ids takes. */
  function Used(ids: seq<string>, others: set<string>): nat {
    |Filter(ids, others, true)|
  }

  /** The id under which an entity is carried over, if n fresh ids have been given out up to and with it. */
  function CarriedId(id: string, others: set<string>, n: nat): string {
    if id in others then GeneratedId(id, n) else id
  }

  /** How many ids have been given out, after the first n, up to and with place i. */
  function NumberAt(ids: seq<string>, others: set<string>, n: nat, i: nat): nat
    requires i < |ids|
  {
    n + Used(ids[..i + 1], others)
  }

  function CarriedEntry(fromA: bool, ids: seq<string>, others: set<string>, n: nat, i: nat): Entry
    requires i < |ids|
  {
    var out := CarriedId(ids[i], others, NumberAt(ids, others, n, i));
    if fromA then OnlyOld(ids[i], out) else OnlyNew(ids[i], out)
  }

  function Carry(fromA: bool, ids: seq<string>, others: set<string>, n: nat): (r: seq<Entry>)
    ensures |r| == |ids|
  {
    seq(|ids|, i requires 0 <= i < |ids| => CarriedEntry(fromA, ids, others, n, i))
  }

  function BothPart(a: seq<string>, b: seq<string>, ok: set<string>): seq<Entry> {
    Boths(Merged(a, b, ok))
  }

  function OldPart(a: seq<string>, b: seq<string>, ok: set<string>, n: nat): seq<Entry> {
    Carry(true, NotMergedA(a, b, ok), SetOf(b), n)
  }

  /** The id counter after the old entities have been carried over. */
  function MiddleId(a: seq<string>, b: seq<string>, ok: set<string>, n: nat): nat {
    n + Used(NotMergedA(a, b, ok), SetOf(b))
  }

  function NewPart(a: seq<string>, b: seq<string>, ok: set<string>, n: nat): seq<Entry> {
    Carry(false, NotMergedB(a, b, ok), SetOf(a), MiddleId(a, b, ok, n))
  }

  /** All registrations in order; n is the id counter before the merge. */
  function Plan(a: seq<string>, b: seq<string>, ok: set<string>, n: nat): seq<Entry> {
    BothPart(a, b, ok) + OldPart(a, b, ok, n) + NewPart(a, b, ok, n)
  }

  /** The id counter after the merge. */
  function NextId(a: seq<string>, b: seq<string>, ok: set<string>, n: nat): nat {
    MiddleId(a, b, ok, n) + Used(NotMergedB(a, b, ok), SetOf(a))
  }

  // ---------- every entity is registered exactly once ----------

  function OldOf(e: Entry): seq<string> {
    if e.OnlyNew? then [] else [e.id]
  }

  function NewOf(e: Entry): seq<string> {
    if e.OnlyOld? then [] else [e.id]
  }

  function OldsOf(es: seq<Entry>): seq<string> {
    if es == [] then [] else OldsOf(es[..|es| - 1]) + OldOf(es[|es| - 1])
  }

  function NewsOf(es: seq<Entry>): seq<string> {
    if es == [] then [] else NewsOf(es[..|es| - 1]) + NewOf(es[|es| - 1])
  }

  lemma ConcatAssociative(a: seq<string>, b: seq<string>, c: seq<string>)
    ensures (a + b) + c == a + (b + c)
  {
  }

  lemma {:induction false} SourcesConcat(r: seq<Entry>, s: seq<Entry>)
    ensures OldsOf(r + s) == OldsOf(r) + OldsOf(s)
    ensures NewsOf(r + s) == NewsOf(r) + NewsOf(s)
    decreases |s|
  {
    if s == [] {
      assert r + s == r;
    } else {
      var init, last := s[..|s| - 1], s[|s| - 1];
      SourcesConcat(r, init);
      assert (r + s)[..|r + s| - 1] == r + init && (r + s)[|r + s| - 1] == last;
      ConcatAssociative(OldsOf(r), OldsOf(init), OldOf(last));
      ConcatAssociative(NewsOf(r), NewsOf(init), NewOf(last));
    }
  }

  lemma {:induction false} OldsAre(es: seq<Entry>, ids: seq<string>)
    requires |es| == |ids| && forall i :: 0 <= i < |es| ==> OldOf(es[i]) == [ids[i]]
    ensures OldsOf(es) == ids
    decreases |es|
  {
    if es != [] {
      OldsAre(es[..|es| - 1], ids[..|ids| - 1]);
    }
  }

  lemma {:induction false} NewsAre(es: seq<Entry>, ids: seq<string>)
    requires |es| == |ids| && forall i :: 0 <= i < |es| ==> NewOf(es[i]) == [ids[i]]
    ensures NewsOf(es) == ids
    decreases |es|
  {
    if es != [] {
      NewsAre(es[..|es| - 1], ids[..|ids| - 1]);
    }
  }

  lemma {:induction false} NoOlds(es: seq<Entry>)
    requires forall i :: 0 <= i < |es| ==> es[i].OnlyNew?
    ensures OldsOf(es) == []
    decreases |es|
  {
    if es != [] {
      NoOlds(es[..|es| - 1]);
    }
  }

  lemma {:induction false} NoNews(es: seq<Entry>)
    requires forall i :: 0 <= i < |es| ==> es[i].OnlyOld?
    ensures NewsOf(es) == []
    decreases |es|
  {
    if es != [] {
      NoNews(es[..|es| - 1]);
    }
  }

  lemma {:induction false} DistinctCount(s: seq<string>, x: string)
    requires Distinct(s)
    ensures multiset(s)[x] == if x in s then 1 else 0
  {
    if s != [] {
      var init, z := s[..|s| - 1], s[|s| - 1];
      assert s == init + [z];
      DistinctCount(init, x);
    }
  }

  lemma SameMembers(s: seq<string>, t: seq<string>)
    requires Distinct(s) && Distinct(t) && forall x :: x in s <==> x in t
    ensures multiset(s) == multiset(t)
  {
    forall x
      ensures multiset(s)[x] == multiset(t)[x]
    {
      DistinctCount(s, x);
      DistinctCount(t, x);
    }
  }

  lemma NotMergedBDistinct(a: seq<string>, b: seq<string>, ok: set<string>)
    requires Distinct(a) && Distinct(b)
    ensures Distinct(NotMergedB(a, b, ok))
    ensures forall x :: x in NotMergedB(a, b, ok) <==> x in b && !(x in a && x in ok)
  {
    FilterDistinct(a, SetOf(b) * ok, false);
    FilterDistinct(NotMergedA(a, b, ok), SetOf(b), true);
    FilterDistinct(b, SetOf(a), false);
    var f, o := Filter(NotMergedA(a, b, ok), SetOf(b), true), Filter(b, SetOf(a), false);
    forall i, j | 0 <= i < |f| && 0 <= j < |o|
      ensures f[i] != o[j]
    {
      assert f[i] in f && o[j] in o;
    }
  }

  /** Each new entity is merged or carried over, not both. */
  lemma NewsSplit(a: seq<string>, b: seq<string>, ok: set<string>)
    requires Distinct(a) && Distinct(b)
    ensures multiset(Merged(a, b, ok)) + multiset(NotMergedB(a, b, ok)) == multiset(b)
    ensures |Merged(a, b, ok)| + |NotMergedB(a, b, ok)| == |b|
  {
    var m, r := Merged(a, b, ok), NotMergedB(a, b, ok);
    FilterDistinct(a, SetOf(b) * ok, true);
    NotMergedBDistinct(a, b, ok);
    forall i, j | 0 <= i < |m| && 0 <= j < |r|
      ensures m[i] != r[j]
    {
      assert m[i] in m && r[j] in r;
    }
    SameMembers(m + r, b);
    assert |multiset(m + r)| == |m + r| && |multiset(b)| == |b|;
  }

  lemma SourcesOfBothPart(a: seq<string>, b: seq<string>, ok: set<string>)
    ensures OldsOf(BothPart(a, b, ok)) == Merged(a, b, ok) && NewsOf(BothPart(a, b, ok)) == Merged(a, b, ok)
  {
    hide Merged;
    OldsAre(BothPart(a, b, ok), Merged(a, b, ok));
    NewsAre(BothPart(a, b, ok), Merged(a, b, ok));
  }

  lemma SourcesOfOldPart(a: seq<string>, b: seq<string>, ok: set<string>, n: nat)
    ensures OldsOf(OldPart(a, b, ok, n)) == NotMergedA(a, b, ok) && NewsOf(OldPart(a, b, ok, n)) == []
  {
    hide NotMergedA, NumberAt, CarriedId;
    OldsAre(OldPart(a, b, ok, n), NotMergedA(a, b, ok));
    NoNews(OldPart(a, b, ok, n));
  }

  lemma SourcesOfNewPart(a: seq<string>, b: seq<string>, ok: set<string>, n: nat)
    ensures OldsOf(NewPart(a, b, ok, n)) == [] && NewsOf(NewPart(a, b, ok, n)) == NotMergedB(a, b, ok)
  {
    hide NotMergedB, NumberAt, CarriedId;
    NoOlds(NewPart(a, b, ok, n));
    NewsAre(NewPart(a, b, ok, n), NotMergedB(a, b, ok));
  }

  lemma SourcesOfThree(r: seq<Entry>, s: seq<Entry>, t: seq<Entry>)
    ensures OldsOf(r + s + t) == OldsOf(r) + OldsOf(s) + OldsOf(t)
    ensures NewsOf(r + s + t) == NewsOf(r) + NewsOf(s) + NewsOf(t)
  {
    var rs := r + s;
    SourcesConcat(r, s);
    SourcesConcat(rs, t);
  }

  /**
   Nothing is lost and nothing doubled: the registrations name every old entity once and every new entity
   once, and the three counts add up to the two tables.
   */
  lemma Conservation(a: seq<string>, b: seq<string>, ok: set<string>, n: nat)
    requires Distinct(a) && Distinct(b)
    ensures multiset(OldsOf(Plan(a, b, ok, n))) == multiset(a)
    ensures multiset(NewsOf(Plan(a, b, ok, n))) == multiset(b)
    ensures |Merged(a, b, ok)| + |NotMergedA(a, b, ok)| == |a|
    ensures |Merged(a, b, ok)| + |NotMergedB(a, b, ok)| == |b|
    ensures |Plan(a, b, ok, n)| == |Merged(a, b, ok)| + |NotMergedA(a, b, ok)| + |NotMergedB(a, b, ok)|
  {
    SourcesOfBothPart(a, b, ok);
    SourcesOfOldPart(a, b, ok, n);
    SourcesOfNewPart(a, b, ok, n);
    SourcesOfThree(BothPart(a, b, ok), OldPart(a, b, ok, n), NewPart(a, b, ok, n));
    FilterSplits(a, SetOf(b) * ok);
    NewsSplit(a, b, ok);
  }

  // ---------- the ids of the merged table ----------

  function OutIds(es: seq<Entry>): (r: seq<string>)
    ensures |r| == |es|
  {
    seq(|es|, i requires 0 <= i < |es| => OutId(es[i]))
  }

  lemma UsedNone(others: set<string>)
    ensures Used([], others) == 0
  {
  }

  lemma UsedSnoc(ids: seq<string>, others: set<string>)
    requires ids != []
    ensures Used(ids, others) == Used(ids[..|ids| - 1], others) + if ids[|ids| - 1] in others then 1 else 0
  {
  }

  lemma {:induction false} UsedPrefix(ids: seq<string>, others: set<string>, i: nat)
    requires i <= |ids|
    ensures Used(ids[..i], others) <= Used(ids, others)
    decreases |ids|
  {
    if i == |ids| {
      assert ids[..i] == ids;
    } else {
      UsedSnoc(ids, others);
      UsedPrefix(ids[..|ids| - 1], others, i);
      assert ids[..|ids| - 1][..i] == ids[..i];
    }
  }

  /** The number of a fresh id lies after n, and grows from each fresh id to the next. */
  lemma FreshNumbers(ids: seq<string>, others: set<string>, n: nat, i: nat, j: nat)
    requires i < j < |ids| && ids[j] in others
    ensures NumberAt(ids, others, n, i) < NumberAt(ids, others, n, j)
  {
    UsedSnoc(ids[..j + 1], others);
    UsedPrefix(ids[..j], others, i + 1);
    TakeTake(ids, j, j + 1);
    TakeTake(ids, i + 1, j);
  }

  lemma FreshNumber(ids: seq<string>, others: set<string>, n: nat, i: nat)
    requires i < |ids| && ids[i] in others
    ensures n < NumberAt(ids, others, n, i) <= n + Used(ids, others)
  {
    UsedSnoc(ids[..i + 1], others);
    UsedPrefix(ids, others, i + 1);
  }

  /** Every carried-over id is an original one that the other table lacks, or ends in a number from n+1 to m. */
  ghost predicate KeptOrFresh(id: string, kept: set<string>, n: nat, m: nat) {
    id in kept || n < PostfixNumber(id) <= m
  }

  /** Two entities are carried over under different ids if their fresh ids, if they get any, end in different numbers. */
  lemma CarriedIdsDiffer(x: string, y: string, others: set<string>, n: nat, k: nat, l: nat)
    requires x != y && PostfixNumber(x) <= n && PostfixNumber(y) <= n
    requires (x in others ==> n < k) && (y in others ==> n < l) && (x in others && y in others ==> k != l)
    ensures CarriedId(x, others, k) != CarriedId(y, others, l)
  {
    GeneratedPostfix(x, k);
    GeneratedPostfix(y, l);
  }

  /** Two places of a carried-over table have different ids. */
  lemma CarriedDiffer(fromA: bool, ids: seq<string>, others: set<string>, n: nat, i: nat, j: nat)
    requires Distinct(ids) && Bounded(ids, n) && i < j < |ids|
    ensures OutId(CarriedEntry(fromA, ids, others, n, i)) != OutId(CarriedEntry(fromA, ids, others, n, j))
  {
    var x, y := ids[i], ids[j];
    assert x in ids && y in ids;
    if x in others {
      FreshNumber(ids, others, n, i);
    }
    if y in others {
      FreshNumber(ids, others, n, j);
      FreshNumbers(ids, others, n, i, j);
    }
    CarriedIdsDiffer(x, y, others, n, NumberAt(ids, others, n, i), NumberAt(ids, others, n, j));
  }

  lemma CarriedKeptOrFresh(fromA: bool, ids: seq<string>, others: set<string>, n: nat, i: nat)
    requires i < |ids|
    ensures KeptOrFresh(OutId(CarriedEntry(fromA, ids, others, n, i)), SetOf(ids) - others, n, n + Used(ids, others))
  {
    if ids[i] in others {
      FreshNumber(ids, others, n, i);
      GeneratedPostfix(ids[i], NumberAt(ids, others, n, i));
    }
  }

  lemma CarriedDistinct(fromA: bool, ids: seq<string>, others: set<string>, n: nat)
    requires Distinct(ids) && Bounded(ids, n)
    ensures Distinct(OutIds(Carry(fromA, ids, others, n)))
    ensures forall x :: x in OutIds(Carry(fromA, ids, others, n)) ==>
              KeptOrFresh(x, SetOf(ids) - others, n, n + Used(ids, others))
  {
    forall i, j | 0 <= i < j < |ids|
      ensures OutId(CarriedEntry(fromA, ids, others, n, i)) != OutId(CarriedEntry(fromA, ids, others, n, j))
    {
      CarriedDiffer(fromA, ids, others, n, i, j);
    }
    forall i | 0 <= i < |ids|
      ensures KeptOrFresh(OutId(CarriedEntry(fromA, ids, others, n, i)), SetOf(ids) - others, n, n + Used(ids, others))
    {
      CarriedKeptOrFresh(fromA, ids, others, n, i);
    }
  }

  lemma DistinctConcat(s: seq<string>, t: seq<string>)
    requires Distinct(s) && Distinct(t) && forall x :: !(x in s && x in t)
    ensures Distinct(s + t)
  {
    forall i, j | 0 <= i < |s| && 0 <= j < |t|
      ensures s[i] != t[j]
    {
      assert s[i] in s && t[j] in t;
    }
  }

  lemma OutIdsConcat(r: seq<Entry>, s: seq<Entry>)
    ensures OutIds(r + s) == OutIds(r) + OutIds(s)
  {
  }

  /** The merged table has no id twice: fresh ids end in numbers larger than any other id does. */
  lemma OutIdsDistinct(a: seq<string>, b: seq<string>, ok: set<string>, n: nat)
    requires Distinct(a) && Distinct(b) && Bounded(a, n) && Bounded(b, n)
    ensures Distinct(OutIds(Plan(a, b, ok, n)))
    ensures forall x :: x in OutIds(Plan(a, b, ok, n)) ==> KeptOrFresh(x, SetOf(a) + SetOf(b), n, NextId(a, b, ok, n))
  {
    var restA, restB := NotMergedA(a, b, ok), NotMergedB(a, b, ok);
    var n' := MiddleId(a, b, ok, n);
    var m := Merged(a, b, ok);
    var ca, cb := Carry(true, restA, SetOf(b), n), Carry(false, restB, SetOf(a), n');
    FilterDistinct(a, SetOf(b) * ok, true);
    FilterDistinct(a, SetOf(b) * ok, false);
    NotMergedBDistinct(a, b, ok);
    CarriedDistinct(true, restA, SetOf(b), n);
    CarriedDistinct(false, restB, SetOf(a), n');
    assert OutIds(Boths(m)) == m;
    DisjointParts(a, b, ok, n, m, OutIds(ca), OutIds(cb));
    ThreeDistinct(Boths(m), ca, cb);
  }

  lemma ThreeDistinct(r: seq<Entry>, s: seq<Entry>, t: seq<Entry>)
    requires Distinct(OutIds(r)) && Distinct(OutIds(s)) && Distinct(OutIds(t))
    requires forall x :: !(x in OutIds(r) && x in OutIds(s))
    requires forall x :: !(x in OutIds(r) + OutIds(s) && x in OutIds(t))
    ensures OutIds(r + s + t) == OutIds(r) + OutIds(s) + OutIds(t)
    ensures Distinct(OutIds(r + s + t))
  {
    OutIdsConcat(r, s);
    OutIdsConcat(r + s, t);
    DistinctConcat(OutIds(r), OutIds(s));
    DistinctConcat(OutIds(r) + OutIds(s), OutIds(t));
  }

  /** Merged ids, carried-over old ids and carried-over new ids do not meet. */
  lemma DisjointParts(a: seq<string>, b: seq<string>, ok: set<string>, n: nat, m: seq<string>, ca: seq<string>, cb: seq<string>)
    requires Bounded(a, n) && Bounded(b, n) && m == Merged(a, b, ok)
    requires var n' := MiddleId(a, b, ok, n);
             && (forall x :: x in ca ==> KeptOrFresh(x, SetOf(NotMergedA(a, b, ok)) - SetOf(b), n, n'))
             && (forall x :: x in cb ==> KeptOrFresh(x, SetOf(NotMergedB(a, b, ok)) - SetOf(a), n', NextId(a, b, ok, n)))
    requires forall x :: x in NotMergedB(a, b, ok) ==> x in b
    ensures forall x :: !(x in m && x in ca)
    ensures forall x :: !(x in m + ca && x in cb)
    ensures forall x :: x in m + ca + cb ==> KeptOrFresh(x, SetOf(a) + SetOf(b), n, NextId(a, b, ok, n))
  {
    forall x | x in m
      ensures x !in ca && x !in cb
    {
      assert x in a && x in b;
    }
    forall x | x in ca
      ensures x !in cb
    {
      assert x in SetOf(NotMergedA(a, b, ok)) ==> x in a;
    }
  }

  // ---------- which entities are merged, and which outcomes have a blank id ----------

  lemma BothIff(a: seq<string>, b: seq<string>, ok: set<string>, n: nat, id: string)
    ensures Both(id) in Plan(a, b, ok, n) <==> id in a && id in b && id in ok
  {
    InPart(Plan(a, b, ok, n), Both(id), BothPart(a, b, ok), OldPart(a, b, ok, n), NewPart(a, b, ok, n));
    BothPartIs(a, b, ok, Both(id));
  }

  lemma GeneratedNotBlank(base: string, n: nat)
    ensures GeneratedId(base, n) != ""
  {
  }

  /** An outcome's id is blank only if its entity's is, and then unless the entity got a fresh one. */
  lemma BlankOutcome(a: seq<string>, b: seq<string>, ok: set<string>, n: nat, e: Entry)
    requires e in Plan(a, b, ok, n)
    ensures OutId(e) == "" <==> e.id == "" && (e.OnlyOld? ==> "" !in b) && (e.OnlyNew? ==> "" !in a)
  {
    InPart(Plan(a, b, ok, n), e, BothPart(a, b, ok), OldPart(a, b, ok, n), NewPart(a, b, ok, n));
    if e in BothPart(a, b, ok) {
    } else if e in OldPart(a, b, ok, n) {
      BlankCarried(true, NotMergedA(a, b, ok), SetOf(b), n, e);
    } else {
      BlankCarried(false, NotMergedB(a, b, ok), SetOf(a), MiddleId(a, b, ok, n), e);
    }
  }

  lemma BlankCarried(fromA: bool, ids: seq<string>, others: set<string>, n: nat, e: Entry)
    requires e in Carry(fromA, ids, others, n)
    ensures (if fromA then e.OnlyOld? else e.OnlyNew?) && (OutId(e) == "" <==> e.id == "" && "" !in others)
  {
    var i :| 0 <= i < |ids| && e == CarriedEntry(fromA, ids, others, n, i);
    GeneratedNotBlank(ids[i], NumberAt(ids, others, n, i));
  }

  lemma GeneratedIsLonger(base: string, n: nat)
    ensures |GeneratedId(base, n)| > |base|
  {
  }

  /** A merged entity and one whose id the other table lacks keep their ids; the others get fresh ones. */
  lemma KeepsIdIff(a: seq<string>, b: seq<string>, ok: set<string>, n: nat, e: Entry)
    requires e in Plan(a, b, ok, n)
    ensures OutId(e) == e.id <==> (e.OnlyOld? ==> e.id !in b) && (e.OnlyNew? ==> e.id !in a)
  {
    InPart(Plan(a, b, ok, n), e, BothPart(a, b, ok), OldPart(a, b, ok, n), NewPart(a, b, ok, n));
    if e in BothPart(a, b, ok) {
    } else if e in OldPart(a, b, ok, n) {
      KeepsIdCarried(true, NotMergedA(a, b, ok), SetOf(b), n, e);
    } else {
      KeepsIdCarried(false, NotMergedB(a, b, ok), SetOf(a), MiddleId(a, b, ok, n), e);
    }
  }

  lemma KeepsIdCarried(fromA: bool, ids: seq<string>, others: set<string>, n: nat, e: Entry)
    requires e in Carry(fromA, ids, others, n)
    ensures (if fromA then e.OnlyOld? else e.OnlyNew?) && (OutId(e) == e.id <==> e.id !in others)
  {
    var i :| 0 <= i < |ids| && e == CarriedEntry(fromA, ids, others, n, i);
    GeneratedIsLonger(ids[i], NumberAt(ids, others, n, i));
  }

  // ---------- the plan as a relation ----------

  /** Every entity has one registration, every registration one id, and only entities that can be are merged. */
  ghost predicate PlanOk(plan: seq<Entry>, a: set<string>, b: set<string>, ok: set<string>) {
    && (forall e, f :: e in plan && f in plan && OutId(e) == OutId(f) ==> e == f)
    && (forall e, f :: e in plan && f in plan && !e.OnlyNew? && !f.OnlyNew? && e.id == f.id ==> e == f)
    && (forall e, f :: e in plan && f in plan && !e.OnlyOld? && !f.OnlyOld? && e.id == f.id ==> e == f)
    && (forall e :: e in plan ==> (e.OnlyNew? || e.id in a) && (e.OnlyOld? || e.id in b) && (e.Both? ==> e.id in ok))
    && (forall id :: id in a ==> exists e :: e in plan && !e.OnlyNew? && e.id == id)
    && (forall id :: id in b ==> exists e :: e in plan && !e.OnlyOld? && e.id == id)
  }

  lemma {:induction false} InPart(plan: seq<Entry>, e: Entry, r: seq<Entry>, s: seq<Entry>, t: seq<Entry>)
    requires plan == r + s + t
    ensures e in plan <==> e in r || e in s || e in t
  {
  }

  lemma BothPartIs(a: seq<string>, b: seq<string>, ok: set<string>, e: Entry)
    ensures e in BothPart(a, b, ok) <==> e.Both? && e.id in Merged(a, b, ok)
  {
    var ids := Merged(a, b, ok);
    if e.Both? && e.id in ids {
      var i :| 0 <= i < |ids| && ids[i] == e.id;
      assert BothPart(a, b, ok)[i] == e;
    }
  }

  lemma CarryIs(fromA: bool, ids: seq<string>, others: set<string>, n: nat)
    requires Distinct(ids)
    ensures forall e :: e in Carry(fromA, ids, others, n) ==> e.id in ids && (if fromA then e.OnlyOld? else e.OnlyNew?)
    ensures forall e, f :: e in Carry(fromA, ids, others, n) && f in Carry(fromA, ids, others, n) && e.id == f.id ==> e == f
    ensures forall id :: id in ids ==> exists e :: e in Carry(fromA, ids, others, n) && e.id == id
  {
    var es := Carry(fromA, ids, others, n);
    forall id | id in ids
      ensures exists e :: e in es && e.id == id
    {
      var i :| 0 <= i < |ids| && ids[i] == id;
      assert es[i] in es && es[i].id == id;
    }
  }

  lemma {:induction false} OutIdOf(plan: seq<Entry>)
    requires Distinct(OutIds(plan))
    ensures forall e, f :: e in plan && f in plan && OutId(e) == OutId(f) ==> e == f
  {
    forall e, f | e in plan && f in plan && OutId(e) == OutId(f)
      ensures e == f
    {
      var i :| 0 <= i < |plan| && plan[i] == e;
      var j :| 0 <= j < |plan| && plan[j] == f;
      assert OutIds(plan)[i] == OutIds(plan)[j];
    }
  }

  lemma PlanIsOk(a: seq<string>, b: seq<string>, ok: set<string>, n: nat)
    requires Distinct(a) && Distinct(b) && Bounded(a, n) && Bounded(b, n)
    ensures PlanOk(Plan(a, b, ok, n), SetOf(a), SetOf(b), ok)
  {
    var plan := Plan(a, b, ok, n);
    OutIdsDistinct(a, b, ok, n);
    OutIdOf(plan);
    FilterDistinct(a, SetOf(b) * ok, false);
    NotMergedBDistinct(a, b, ok);
    CarryIs(true, NotMergedA(a, b, ok), SetOf(b), n);
    CarryIs(false, NotMergedB(a, b, ok), SetOf(a), MiddleId(a, b, ok, n));
    forall e
      ensures e in plan <==> e in BothPart(a, b, ok) || e in OldPart(a, b, ok, n) || e in NewPart(a, b, ok, n)
      ensures e in BothPart(a, b, ok) <==> e.Both? && e.id in Merged(a, b, ok)
    {
      InPart(plan, e, BothPart(a, b, ok), OldPart(a, b, ok, n), NewPart(a, b, ok, n));
      BothPartIs(a, b, ok, e);
    }
    forall id | id in a
      ensures exists e :: e in plan && !e.OnlyNew? && e.id == id
    {
      if id in Merged(a, b, ok) {
        assert Both(id) in plan;
      } else {
        var e :| e in OldPart(a, b, ok, n) && e.id == id;
        assert e in plan;
      }
    }
    forall id | id in b
      ensures exists e :: e in plan && !e.OnlyOld? && e.id == id
    {
      if id in Merged(a, b, ok) {
        assert Both(id) in plan;
      } else {
        var e :| e in NewPart(a, b, ok, n) && e.id == id;
        assert e in plan;
      }
    }
  }

  /** The id that an old entity's outcome has. */
  function OldMap(plan: seq<Entry>): map<string, string>
    requires forall e, f :: e in plan && f in plan && !e.OnlyNew? && !f.OnlyNew? && e.id == f.id ==> e == f
  {
    map e | e in plan && !e.OnlyNew? :: e.id := OutId(e)
  }

  /** The id that a new entity's outcome has. */
  function NewMap(plan: seq<Entry>): map<string, string>
    requires forall e, f :: e in plan && f in plan && !e.OnlyOld? && !f.OnlyOld? && e.id == f.id ==> e == f
  {
    map e | e in plan && !e.OnlyOld? :: e.id := OutId(e)
  }

  /** A plan with the maps that it makes, and the id counter after it. */
  datatype Mapping = Mapping(plan: seq<Entry>, n: nat, old': map<string, string>, new': map<string, string>)

  ghost predicate MappingOk(m: Mapping, a: set<string>, b: set<string>, ok: set<string>) {
    && PlanOk(m.plan, a, b, ok)
    && m.old' == OldMap(m.plan) && m.old'.Keys == a
    && m.new' == NewMap(m.plan) && m.new'.Keys == b
  }

  lemma MapKeys(plan: seq<Entry>, a: set<string>, b: set<string>, ok: set<string>)
    requires PlanOk(plan, a, b, ok)
    ensures OldMap(plan).Keys == a && NewMap(plan).Keys == b
  {
    forall id
      ensures id in OldMap(plan) <==> id in a
      ensures id in NewMap(plan) <==> id in b
    {
    }
  }

  function MapIds(a: seq<string>, b: seq<string>, ok: set<string>, n: nat): (r: Mapping)
    requires Distinct(a) && Distinct(b) && Bounded(a, n) && Bounded(b, n)
    ensures MappingOk(r, SetOf(a), SetOf(b), ok) && n <= r.n
    ensures r.plan == Plan(a, b, ok, n) && r.n == NextId(a, b, ok, n)
  {
    var plan := Plan(a, b, ok, n);
    PlanIsOk(a, b, ok, n);
    MapKeys(plan, SetOf(a), SetOf(b), ok);
    Mapping(plan, NextId(a, b, ok, n), OldMap(plan), NewMap(plan))
  }
}
