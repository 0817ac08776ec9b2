/**
 The fare zones of the merged stops.  Zones of merged stops keep their ids; every other zone gets a fresh id,
 once for each feed.  Zone ids are not among the ids that the counter has been moved beyond.
 */
module Zones {
  import opened Wrappers
  import opened Ids
  import opened Sequences

  type ZoneMap = map<string, string>

  /** A zone map, and the id counter. */
  datatype Zoned = Zoned(zones: ZoneMap, n: nat)

  /** The merged stops: each zone stands for itself. */
  function KeepZones(kept: seq<string>): ZoneMap {
    map z | z in kept :: z
  }

  lemma KeepZonesMore(zones: seq<string>, i: nat)
    requires i < |zones|
    ensures KeepZones(zones[..i + 1]) == KeepZones(zones[..i])[zones[i] := zones[i]]
  {
    TakeMore(zones, i);
  }

  /** A zone that is mapped already stays as it is; any other is given a fresh id. */
  function AssignZone(r: Zoned, z: string): Zoned {
    if z in r.zones then r else Zoned(r.zones[z := GeneratedId(z, r.n + 1)], r.n + 1)
  }

  /** The zones of the unmerged stops of one feed, in order. */
  function AssignZones(zm: ZoneMap, zones: seq<string>, n: nat): Zoned {
    if zones == [] then Zoned(zm, n) else AssignZone(AssignZones(zm, zones[..|zones| - 1], n), zones[|zones| - 1])
  }

  /** A zone that has its id keeps it; one that gets one gets a fresh one, of a number of its own. */
  ghost predicate Extends(zm: ZoneMap, n: nat, r: Zoned) {
    && n <= r.n
    && (forall z :: z in zm ==> z in r.zones && r.zones[z] == zm[z])
    && (forall z :: z in r.zones && z !in zm ==> n < PostfixNumber(r.zones[z]) <= r.n)
    && (forall y, z :: y in r.zones && y !in zm && z in r.zones && z !in zm && y != z ==> r.zones[y] != r.zones[z])
  }

  lemma ExtendsStep(zm: ZoneMap, n: nat, r: Zoned, z: string, id: string)
    requires Extends(zm, n, r) && z !in r.zones && PostfixNumber(id) == r.n + 1
    ensures Extends(zm, n, Zoned(r.zones[z := id], r.n + 1))
  {
  }

  lemma {:induction false} AssignExtends(zm: ZoneMap, zones: seq<string>, n: nat)
    ensures Extends(zm, n, AssignZones(zm, zones, n))
    ensures forall z :: z in AssignZones(zm, zones, n).zones <==> z in zm || z in zones
    decreases |zones|
  {
    if zones != [] {
      var init, z := zones[..|zones| - 1], zones[|zones| - 1];
      assert forall y :: y in zones <==> y in init || y == z;
      AssignExtends(zm, init, n);
      var r := AssignZones(zm, init, n);
      if z !in r.zones {
        GeneratedPostfix(z, r.n + 1);
        ExtendsStep(zm, n, r, z, GeneratedId(z, r.n + 1));
      }
    }
  }

  /** What a stop is given when its turn comes is what its zone maps to in the end. */
  lemma {:induction false} AssignStays(zm: ZoneMap, zones: seq<string>, n: nat, i: nat)
    requires i <= |zones|
    ensures var r, r' := AssignZones(zm, zones[..i], n), AssignZones(zm, zones, n);
            forall z :: z in r.zones ==> z in r'.zones && r'.zones[z] == r.zones[z]
    decreases |zones|
  {
    if i == |zones| {
      assert zones[..i] == zones;
    } else {
      var init := zones[..|zones| - 1];
      AssignStays(zm, init, n, i);
      assert init[..i] == zones[..i];
    }
  }

  // ---------- which zones stay apart ----------

  /** The zone maps of both feeds. */
  datatype BothZones = BothZones(a: ZoneMap, b: ZoneMap, n: nat)

  function MergeZones(kept: seq<string>, restA: seq<string>, restB: seq<string>, n: nat): BothZones {
    var za := AssignZones(KeepZones(kept), restA, n);
    var zb := AssignZones(KeepZones(kept), restB, za.n);
    BothZones(za.zones, zb.zones, zb.n)
  }

  /** Different zones of a feed stay different; zones of different feeds are one only where they were merged. */
  ghost predicate Separate(kept: seq<string>, z: BothZones) {
    && (forall x, y :: x in z.a && y in z.a && z.a[x] == z.a[y] ==> x == y)
    && (forall x, y :: x in z.b && y in z.b && z.b[x] == z.b[y] ==> x == y)
    && (forall x, y :: x in z.a && y in z.b && z.a[x] == z.b[y] ==> x == y && x in kept)
  }

  /** Both feeds' maps are functional, keep the merged zones, and cover the zones of all stops. */
  lemma ZoneMapsCover(kept: seq<string>, restA: seq<string>, restB: seq<string>, n: nat)
    ensures var z := MergeZones(kept, restA, restB, n);
            && (forall x :: x in z.a <==> x in kept || x in restA)
            && (forall x :: x in z.b <==> x in kept || x in restB)
            && (forall x :: x in kept ==> z.a[x] == x && z.b[x] == x)
            && n <= z.n
  {
    AssignExtends(KeepZones(kept), restA, n);
    AssignExtends(KeepZones(kept), restB, AssignZones(KeepZones(kept), restA, n).n);
  }

  /** A kept zone keeps its id; any other gets an id that ends in a number beyond n. */
  lemma ZonesKeptOrFresh(kept: seq<string>, restA: seq<string>, restB: seq<string>, n: nat)
    ensures var z := MergeZones(kept, restA, restB, n);
            && (forall x :: x in z.a ==> if x in kept then z.a[x] == x else PostfixNumber(z.a[x]) > n)
            && (forall x :: x in z.b ==> if x in kept then z.b[x] == x else PostfixNumber(z.b[x]) > n)
  {
    hide AssignZones, PostfixNumber;
    AssignExtends(KeepZones(kept), restA, n);
    AssignExtends(KeepZones(kept), restB, AssignZones(KeepZones(kept), restA, n).n);
  }

  /** How many different zones there are among these that are not kept. */
  function NewZones(kept: seq<string>, zones: seq<string>): nat {
    |SetOf(zones) - SetOf(kept)|
  }

  /** The id counter after the new zones have been given their ids. */
  function CounterAfter(kept: seq<string>, zones: seq<string>, n: nat): nat {
    n + NewZones(kept, zones)
  }

  /** The first stop of a zone that is not kept. */
  predicate IsFirst(kept: seq<string>, zones: seq<string>, i: nat)
    requires i < |zones|
  {
    zones[i] !in kept && zones[i] !in zones[..i]
  }

  /** The id that is generated for a zone at its first stop. */
  function FreshId(kept: seq<string>, zones: seq<string>, n: nat, i: nat): string
    requires i < |zones|
  {
    GeneratedId(zones[i], CounterAfter(kept, zones[..i + 1], n))
  }

  /** No zone, at its first stop, is given an id that is that of a kept zone. */
  predicate ZonesFree(kept: seq<string>, zones: seq<string>, n: nat) {
    forall i :: 0 <= i < |zones| && IsFirst(kept, zones, i) ==> FreshId(kept, zones, n, i) !in kept
  }

  /** No zone but a kept one has the id of a kept one. */
  ghost predicate NoneKept(kept: seq<string>, r: ZoneMap) {
    forall z :: z in r && z !in kept ==> r[z] !in kept
  }

  lemma NewZonesStep(kept: seq<string>, zones: seq<string>, i: nat)
    requires i < |zones|
    ensures NewZones(kept, zones[..i + 1]) == NewZones(kept, zones[..i]) + if IsFirst(kept, zones, i) then 1 else 0
  {
    var before, after, k := SetOf(zones[..i]), SetOf(zones[..i + 1]), SetOf(kept);
    TakeMore(zones, i);
    assert after == before + {zones[i]};
    if IsFirst(kept, zones, i) {
      assert after - k == (before - k) + {zones[i]};
    } else {
      assert after - k == before - k;
    }
  }

  /** How many fresh ids have been given out, and which one each zone has got. */
  lemma {:induction false} AssignedIds(kept: seq<string>, zones: seq<string>, n: nat, i: nat)
    requires i <= |zones|
    ensures AssignZones(KeepZones(kept), zones[..i], n).n == n + NewZones(kept, zones[..i])
    ensures forall z :: z in AssignZones(KeepZones(kept), zones[..i], n).zones <==> z in kept || z in zones[..i]
    decreases i
  {
    if i == 0 {
      TakeNone(zones);
      assert SetOf(zones[..0]) - SetOf(kept) == {};
    } else {
      AssignedIds(kept, zones, n, i - 1);
      NewZonesStep(kept, zones, i - 1);
      TakeTake(zones, i - 1, i);
      TakeMore(zones, i - 1);
    }
  }

  lemma AssignedCount(kept: seq<string>, zones: seq<string>, n: nat)
    ensures AssignZones(KeepZones(kept), zones, n).n == CounterAfter(kept, zones, n)
    ensures forall z :: z in AssignZones(KeepZones(kept), zones, n).zones <==> z in kept || z in zones
  {
    AssignedIds(kept, zones, n, |zones|);
    TakeAll(zones);
  }

  lemma {:induction false} AssignNext(zm: ZoneMap, zones: seq<string>, n: nat, i: nat)
    requires i < |zones|
    ensures AssignZones(zm, zones[..i + 1], n) == AssignZone(AssignZones(zm, zones[..i], n), zones[i])
  {
    TakeTake(zones, i, i + 1);
  }

  lemma FirstGets(kept: seq<string>, zones: seq<string>, n: nat, i: nat)
    requires i < |zones| && IsFirst(kept, zones, i)
    ensures var r := AssignZones(KeepZones(kept), zones, n).zones;
            zones[i] in r && r[zones[i]] == FreshId(kept, zones, n, i)
  {
    hide GeneratedId, NewZones, KeepZones;
    AssignedIds(kept, zones, n, i);
    NewZonesStep(kept, zones, i);
    AssignNext(KeepZones(kept), zones, n, i);
    AssignStays(KeepZones(kept), zones, n, i + 1);
  }

  lemma {:induction false} HasFirst(kept: seq<string>, zones: seq<string>, z: string) returns (i: nat)
    requires z in zones && z !in kept
    ensures i < |zones| && zones[i] == z && IsFirst(kept, zones, i)
    decreases |zones|
  {
    var n := |zones| - 1;
    if z in zones[..n] {
      i := HasFirst(kept, zones[..n], z);
      TakeTake(zones, i, n);
    } else {
      i := n;
    }
  }

  /** The zones that are not kept get no kept id exactly if none of the ids generated at first stops is one. */
  lemma FreeIffNoneKept(kept: seq<string>, zones: seq<string>, n: nat)
    ensures ZonesFree(kept, zones, n) <==> NoneKept(kept, AssignZones(KeepZones(kept), zones, n).zones)
  {
    if ZonesFree(kept, zones, n) {
      FreeMeansNoneKept(kept, zones, n);
    }
    if NoneKept(kept, AssignZones(KeepZones(kept), zones, n).zones) {
      NoneKeptMeansFree(kept, zones, n);
    }
  }

  lemma FreeMeansNoneKept(kept: seq<string>, zones: seq<string>, n: nat)
    requires ZonesFree(kept, zones, n)
    ensures NoneKept(kept, AssignZones(KeepZones(kept), zones, n).zones)
  {
    var r := AssignZones(KeepZones(kept), zones, n).zones;
    AssignedCount(kept, zones, n);
    forall z | z in r && z !in kept
      ensures r[z] !in kept
    {
      var i := HasFirst(kept, zones, z);
      FirstGets(kept, zones, n, i);
    }
  }

  lemma NoneKeptMeansFree(kept: seq<string>, zones: seq<string>, n: nat)
    requires NoneKept(kept, AssignZones(KeepZones(kept), zones, n).zones)
    ensures ZonesFree(kept, zones, n)
  {
    forall i | 0 <= i < |zones| && IsFirst(kept, zones, i)
      ensures FreshId(kept, zones, n, i) !in kept
    {
      FirstGets(kept, zones, n, i);
    }
  }

  /**
   Exactly when the merge keeps the zones apart: if and only if no id that is generated, for the other old zones
   and after them for the other new ones, is the id of a kept zone.
   */
  lemma SeparateIffFree(kept: seq<string>, restA: seq<string>, restB: seq<string>, n: nat)
    ensures Separate(kept, MergeZones(kept, restA, restB, n)) <==>
            ZonesFree(kept, restA, n) && ZonesFree(kept, restB, CounterAfter(kept, restA, n))
  {
    var m := CounterAfter(kept, restA, n);
    AssignedCount(kept, restA, n);
    FreeIffNoneKept(kept, restA, n);
    FreeIffNoneKept(kept, restB, m);
    SeparateIffNoneKept(kept, restA, restB, n, m);
  }

  lemma SeparateIffNoneKept(kept: seq<string>, restA: seq<string>, restB: seq<string>, n: nat, m: nat)
    requires m == AssignZones(KeepZones(kept), restA, n).n
    ensures Separate(kept, MergeZones(kept, restA, restB, n)) <==>
            NoneKept(kept, AssignZones(KeepZones(kept), restA, n).zones) &&
            NoneKept(kept, AssignZones(KeepZones(kept), restB, m).zones)
  {
    var km := KeepZones(kept);
    var za := AssignZones(km, restA, n);
    var zb := AssignZones(km, restB, m);
    AssignExtends(km, restA, n);
    AssignExtends(km, restB, m);
    SeparateMeansNoneKept(kept, za.zones, zb.zones, zb.n);
    NoneKeptMeansSeparate(kept, n, za, zb);
  }

  lemma SeparateMeansNoneKept(kept: seq<string>, a: ZoneMap, b: ZoneMap, n: nat)
    requires forall k :: k in kept ==> k in a && a[k] == k && k in b && b[k] == k
    ensures Separate(kept, BothZones(a, b, n)) ==> NoneKept(kept, a) && NoneKept(kept, b)
  {
  }

  lemma NoneKeptMeansSeparate(kept: seq<string>, n: nat, za: Zoned, zb: Zoned)
    requires Extends(KeepZones(kept), n, za) && Extends(KeepZones(kept), za.n, zb)
    ensures NoneKept(kept, za.zones) && NoneKept(kept, zb.zones) ==> Separate(kept, BothZones(za.zones, zb.zones, zb.n))
  {
    assert forall x :: x in KeepZones(kept) <==> x in kept;
    assert forall x :: x in kept ==> za.zones[x] == x && zb.zones[x] == x;
    if NoneKept(kept, za.zones) && NoneKept(kept, zb.zones) {
      KeptOrNew(kept, n, za);
      KeptOrNew(kept, za.n, zb);
      ApartByNumber(kept, n, za, zb);
    }
  }

  /** The zones of one feed stay different. */
  lemma KeptOrNew(kept: seq<string>, n: nat, r: Zoned)
    requires Extends(KeepZones(kept), n, r) && NoneKept(kept, r.zones)
    requires forall x :: x in kept ==> x in r.zones && r.zones[x] == x
    ensures forall x, y :: x in r.zones && y in r.zones && r.zones[x] == r.zones[y] ==> x == y
  {
  }

  /** The fresh ids of the two feeds end in different numbers. */
  lemma ApartByNumber(kept: seq<string>, n: nat, za: Zoned, zb: Zoned)
    requires Extends(KeepZones(kept), n, za) && Extends(KeepZones(kept), za.n, zb)
    requires NoneKept(kept, za.zones) && NoneKept(kept, zb.zones)
    requires forall x :: x in kept ==> x in za.zones && za.zones[x] == x && x in zb.zones && zb.zones[x] == x
    ensures forall x, y :: x in za.zones && y in zb.zones && za.zones[x] == zb.zones[y] ==> x == y && x in kept
  {
  }

  /** It suffices that no kept zone id ends in a number beyond the counter. */
  lemma BoundedZonesStaySeparate(kept: seq<string>, restA: seq<string>, restB: seq<string>, n: nat)
    requires Bounded(kept, n)
    ensures Separate(kept, MergeZones(kept, restA, restB, n))
  {
    BoundedZonesAreFree(kept, restA, n, n);
    BoundedZonesAreFree(kept, restB, n, CounterAfter(kept, restA, n));
    SeparateIffFree(kept, restA, restB, n);
  }

  lemma BoundedZonesAreFree(kept: seq<string>, zones: seq<string>, n: nat, m: nat)
    requires Bounded(kept, n) && n <= m
    ensures ZonesFree(kept, zones, m)
  {
    forall i | 0 <= i < |zones| && IsFirst(kept, zones, i)
      ensures FreshId(kept, zones, m, i) !in kept
    {
      NewZonesStep(kept, zones, i);
      GeneratedPostfix(zones[i], CounterAfter(kept, zones[..i + 1], m));
    }
  }

  /** Without that, two zones of one feed can become one: the kept zone's id is the one generated for the other. */
  lemma ZonesCanCollide()
    ensures !Separate(["x_merged_1"], MergeZones(["x_merged_1"], ["x"], [], 0))
  {
    var id := GeneratedId("x", 1);
    assert id == "x_merged_1" by {
      assert Decimal(1) == "1";
      assert "x" + "_merged_" + "1" == "x_merged_1";
    }
    GeneratedCollides("x", id, 0);
  }

  /** A zone that is kept collides with another one if its id is what is generated for that. */
  lemma GeneratedCollides(zone: string, id: string, n: nat)
    requires id == GeneratedId(zone, n + 1) && zone != id
    ensures !Separate([id], MergeZones([id], [zone], [], n))
  {
    var kept, rest := [id], [zone];
    OneNewZone(kept, zone);
    assert !ZonesFree(kept, rest, n) by {
      assert IsFirst(kept, rest, 0) && FreshId(kept, rest, n, 0) in kept;
    }
    SeparateIffFree(kept, rest, [], n);
  }

  lemma OneNewZone(kept: seq<string>, zone: string)
    requires zone !in kept
    ensures [zone][..1] == [zone] && NewZones(kept, [zone]) == 1
  {
    assert SetOf([zone]) - SetOf(kept) == {zone};
  }
}
