/** The vocabulary of proximity clustering shared by the Python and the
    browser clusterers: coordinates, what a great-circle distance guarantees,
    and what it means for a list of index lists to be a partition of the
    hotspots into clusters closed under "within the radius". */
module Proximity {

  /** A (latitude, longitude) pair in decimal degrees. */
  datatype Coord = Coord(lat: real, lon: real)

  /** The four severity labels both clusterers assign to a zone. */
  datatype Severity = Low | Moderate | High | Critical

  /** The order of the severity labels, from Low (0) to Critical (3). */
  function Rank(s: Severity): nat {
    match s
    case Low => 0
    case Moderate => 1
    case High => 2
    case Critical => 3
  }

  /** The properties of the haversine distance the model relies on. The
      trigonometric formula itself is not modelled: every operation that
      measures a distance takes it as a parameter that satisfies this. */
  ghost predicate IsDistance(dist: (Coord, Coord) -> real) {
    (forall a, b :: dist(a, b) == dist(b, a)) &&
    (forall a :: dist(a, a) == 0.0) &&
    (forall a, b :: dist(a, b) >= 0.0)
  }

  /** Hotspots a and b are neighbours: both exist and lie within radius. */
  ghost predicate Near(pos: seq<Coord>, dist: (Coord, Coord) -> real, radius: real, a: nat, b: nat) {
    a < |pos| && b < |pos| && dist(pos[a], pos[b]) <= radius
  }

  /** The clusters' index lists, one after the other. */
  function Flatten(cs: seq<seq<nat>>): seq<nat> {
    if cs == [] then [] else Flatten(cs[..|cs| - 1]) + cs[|cs| - 1]
  }

  /** Sum of the cluster sizes (the fire counts). */
  function SumSizes(cs: seq<seq<nat>>): nat {
    if cs == [] then 0 else SumSizes(cs[..|cs| - 1]) + |cs[|cs| - 1]|
  }

  ghost predicate NoDup(s: seq<nat>) {
    forall i, j :: 0 <= i < j < |s| ==> s[i] != s[j]
  }

  /** The clusters partition the hotspot indices 0..n-1: no cluster is empty,
      every index lies in some cluster, and no index occurs twice. */
  ghost predicate Partitions(cs: seq<seq<nat>>, n: nat) {
    (forall c :: 0 <= c < |cs| ==> |cs[c]| > 0) &&
    (forall k :: k in Flatten(cs) ==> k < n) &&
    (forall k :: 0 <= k < n ==> k in Flatten(cs)) &&
    NoDup(Flatten(cs))
  }

  /** No neighbour of a member lies outside the cluster. */
  ghost predicate Closed(pos: seq<Coord>, dist: (Coord, Coord) -> real, radius: real, c: seq<nat>) {
    forall a: nat, b: nat :: a in c && Near(pos, dist, radius, a, b) ==> b in c
  }

  /** Every member after the seed is a neighbour of an earlier member, so the
      whole cluster is reachable from its seed through neighbours. */
  ghost predicate Linked(pos: seq<Coord>, dist: (Coord, Coord) -> real, radius: real, c: seq<nat>) {
    forall m :: 0 < m < |c| ==> Reached(pos, dist, radius, c, m)
  }

  /** Member m of c is a neighbour of a member listed before it. */
  ghost predicate Reached(pos: seq<Coord>, dist: (Coord, Coord) -> real, radius: real, c: seq<nat>, m: nat)
    requires m < |c|
  {
    exists p :: 0 <= p < m && Near(pos, dist, radius, c[p], c[m])
  }

  /** Clusters come out in the order of their seeds, and a seed is the
      smallest index of its cluster: the scan that opens clusters walks the
      indices upwards and starts a cluster at the first unassigned index. */
  ghost predicate SeedOrdered(cs: seq<seq<nat>>) {
    (forall c :: 0 <= c < |cs| ==> |cs[c]| > 0 && forall x :: x in cs[c] ==> cs[c][0] <= x) &&
    (forall c1, c2 :: 0 <= c1 < c2 < |cs| && |cs[c1]| > 0 && |cs[c2]| > 0 ==> cs[c1][0] < cs[c2][0])
  }

  lemma FlattenAppend(cs: seq<seq<nat>>, c: seq<nat>)
    ensures Flatten(cs + [c]) == Flatten(cs) + c
    ensures SumSizes(cs + [c]) == SumSizes(cs) + |c|
  {
    assert (cs + [c])[..|cs|] == cs;
  }

  lemma {:induction false} InFlatten(cs: seq<seq<nat>>, x: nat)
    ensures x in Flatten(cs) <==> exists c :: 0 <= c < |cs| && x in cs[c]
  {
    if cs != [] {
      var init := cs[..|cs| - 1];
      InFlatten(init, x);
      assert forall c :: 0 <= c < |init| ==> init[c] == cs[c];
    }
  }

  lemma {:induction false} FlattenLength(cs: seq<seq<nat>>)
    ensures |Flatten(cs)| == SumSizes(cs)
  {
    if cs != [] {
      FlattenLength(cs[..|cs| - 1]);
    }
  }

  /** The indices 0 .. n-1 as a set. */
  function Range(n: nat): set<nat> {
    if n == 0 then {} else Range(n - 1) + {n - 1}
  }

  lemma {:induction false} RangeMembers(n: nat)
    ensures forall k: nat :: k in Range(n) <==> k < n
  {
    if n > 0 {
      RangeMembers(n - 1);
    }
  }

  lemma {:induction false} RangeSize(n: nat)
    ensures |Range(n)| == n
  {
    if n > 0 {
      RangeSize(n - 1);
      RangeMembers(n - 1);
      assert n - 1 !in Range(n - 1);
    }
  }

  /** The set of elements of a sequence. */
  function Elements(s: seq<nat>): (r: set<nat>)
    ensures forall k :: k in r <==> k in s
  {
    if s == [] then {} else Elements(s[..|s| - 1]) + {s[|s| - 1]}
  }

  /** A sequence without duplicates has as many elements as its set. */
  lemma {:induction false} NoDupCard(s: seq<nat>)
    requires NoDup(s)
    ensures |Elements(s)| == |s|
  {
    if s != [] {
      var init := s[..|s| - 1];
      var last := s[|s| - 1];
      assert NoDup(init);
      NoDupCard(init);
      forall i | 0 <= i < |init|
        ensures init[i] != last
      {
        assert init[i] == s[i];
      }
      assert last !in Elements(init);
    }
  }

  /** A set of indices below n has at most n elements. */
  lemma BoundedCard(a: set<nat>, n: nat)
    requires forall k :: k in a ==> k < n
    ensures |a| <= n
  {
    RangeSize(n);
    RangeMembers(n);
    assert a <= Range(n);
    SubsetCard(a, Range(n));
  }

  lemma {:induction false} SubsetCard(a: set<nat>, b: set<nat>)
    requires a <= b
    ensures |a| <= |b|
    decreases b
  {
    if a != {} {
      var x :| x in a;
      SubsetCard(a - {x}, b - {x});
    }
  }

  /** The fire counts of a partition of n hotspots add up to n. */
  lemma PartitionSizes(cs: seq<seq<nat>>, n: nat)
    requires Partitions(cs, n)
    ensures SumSizes(cs) == n
  {
    var f := Flatten(cs);
    FlattenLength(cs);
    NoDupCard(f);
    RangeMembers(n);
    assert Elements(f) == Range(n);
    RangeSize(n);
  }

  lemma NoDupConcat(a: seq<nat>, b: seq<nat>)
    requires NoDup(a + b)
    ensures forall x :: x in a ==> x !in b
  {
    forall x, j | x in a && 0 <= j < |b|
      ensures b[j] != x
    {
      var i :| 0 <= i < |a| && a[i] == x;
      assert (a + b)[i] == x && (a + b)[|a| + j] == b[j];
    }
  }

  /** In a duplicate-free flattening, an index lies in one cluster only. */
  lemma {:induction false} UniqueCluster(cs: seq<seq<nat>>, x: nat, c1: nat, c2: nat)
    requires NoDup(Flatten(cs))
    requires c1 < |cs| && c2 < |cs| && x in cs[c1] && x in cs[c2]
    ensures c1 == c2
  {
    var init := cs[..|cs| - 1];
    var last := cs[|cs| - 1];
    assert Flatten(cs) == Flatten(init) + last;
    assert NoDup(Flatten(init)) by {
      assert forall i :: 0 <= i < |Flatten(init)| ==> Flatten(init)[i] == Flatten(cs)[i];
    }
    assert forall c :: 0 <= c < |init| ==> init[c] == cs[c];
    if c1 < |cs| - 1 && c2 < |cs| - 1 {
      UniqueCluster(init, x, c1, c2);
    } else {
      InFlatten(init, x);
      NoDupConcat(Flatten(init), last);
    }
  }

  /** With a symmetric distance, two neighbours never end up in different
      clusters of a partition whose clusters are all closed. */
  lemma NeighboursShareCluster(pos: seq<Coord>, dist: (Coord, Coord) -> real, radius: real,
                               cs: seq<seq<nat>>, a: nat, b: nat, ca: nat, cb: nat)
    requires Partitions(cs, |pos|)
    requires forall c :: 0 <= c < |cs| ==> Closed(pos, dist, radius, cs[c])
    requires ca < |cs| && cb < |cs| && a in cs[ca] && b in cs[cb]
    requires Near(pos, dist, radius, a, b)
    ensures ca == cb
  {
    assert Closed(pos, dist, radius, cs[ca]);
    assert b in cs[ca];
    UniqueCluster(cs, b, ca, cb);
  }

  lemma NoDupAppend(s: seq<nat>, x: nat)
    requires NoDup(s) && x !in s
    ensures NoDup(s + [x])
  {
  }

  /** A duplicate-free list of indices below n has at most n entries. */
  lemma NoDupBounded(s: seq<nat>, n: nat)
    requires NoDup(s) && forall k :: k in s ==> k < n
    ensures |s| <= n
  {
    NoDupCard(s);
    BoundedCard(Elements(s), n);
  }

  /** Appending a neighbour of an existing member keeps a cluster linked. */
  lemma LinkedAppend(pos: seq<Coord>, dist: (Coord, Coord) -> real, radius: real,
                     cur: seq<nat>, p: nat, k: nat)
    requires Linked(pos, dist, radius, cur)
    requires p < |cur| && Near(pos, dist, radius, cur[p], k)
    ensures Linked(pos, dist, radius, cur + [k])
  {
    var c := cur + [k];
    forall m | 0 < m < |c|
      ensures Reached(pos, dist, radius, c, m)
    {
      if m < |cur| {
        assert Reached(pos, dist, radius, cur, m);
        var q :| 0 <= q < m && Near(pos, dist, radius, cur[q], cur[m]);
        assert c[q] == cur[q] && c[m] == cur[m];
      } else {
        assert c[p] == cur[p] && c[m] == k;
      }
    }
  }

  /** The union of closed clusters is closed. */
  lemma FlattenClosed(pos: seq<Coord>, dist: (Coord, Coord) -> real, radius: real,
                      cs: seq<seq<nat>>, x: nat, y: nat)
    requires forall c :: 0 <= c < |cs| ==> Closed(pos, dist, radius, cs[c])
    requires Near(pos, dist, radius, x, y)
    ensures x in Flatten(cs) ==> y in Flatten(cs)
  {
    InFlatten(cs, x);
    InFlatten(cs, y);
  }

  /** The state while a cluster is grown from seed: the clusters cs are
      complete, cur is the cluster so far (seed first), every index below the
      seed was claimed by an earlier cluster, and nothing is claimed twice. */
  ghost predicate Growing(pos: seq<Coord>, dist: (Coord, Coord) -> real, radius: real,
                          cs: seq<seq<nat>>, cur: seq<nat>, seed: nat) {
    seed < |pos| && |cur| > 0 && cur[0] == seed &&
    (forall m :: 0 <= m < |cur| ==> seed <= cur[m] < |pos|) &&
    (forall k :: 0 <= k < seed ==> k in Flatten(cs)) &&
    (forall k :: k in Flatten(cs) ==> k < |pos|) &&
    NoDup(Flatten(cs) + cur) &&
    Linked(pos, dist, radius, cur)
  }

  /** The neighbours of the first j members of cur are all claimed. */
  ghost predicate Scanned(pos: seq<Coord>, dist: (Coord, Coord) -> real, radius: real,
                          cs: seq<seq<nat>>, cur: seq<nat>, j: nat) {
    forall m: nat, b: nat :: m < j && m < |cur| && Near(pos, dist, radius, cur[m], b) ==> b in Flatten(cs) + cur
  }

  /** Opening a cluster at the first unclaimed index. */
  lemma StartGrowing(pos: seq<Coord>, dist: (Coord, Coord) -> real, radius: real,
                     cs: seq<seq<nat>>, seed: nat)
    requires seed < |pos| && seed !in Flatten(cs) && NoDup(Flatten(cs))
    requires forall k :: 0 <= k < seed ==> k in Flatten(cs)
    requires forall k :: k in Flatten(cs) ==> k < |pos|
    ensures Growing(pos, dist, radius, cs, [seed], seed)
    ensures Scanned(pos, dist, radius, cs, [seed], 0)
  {
    NoDupAppend(Flatten(cs), seed);
    assert Linked(pos, dist, radius, [seed]);
  }

  /** Claiming an unclaimed neighbour k of member j. */
  lemma ClaimStep(pos: seq<Coord>, dist: (Coord, Coord) -> real, radius: real,
                  cs: seq<seq<nat>>, cur: seq<nat>, seed: nat, j: nat, k: nat)
    requires Growing(pos, dist, radius, cs, cur, seed)
    requires j < |cur| && Near(pos, dist, radius, cur[j], k)
    requires k !in Flatten(cs) + cur
    ensures Growing(pos, dist, radius, cs, cur + [k], seed)
    ensures forall i :: 0 <= i < |cur| ==> (cur + [k])[i] == cur[i]
    ensures Scanned(pos, dist, radius, cs, cur, j) ==> Scanned(pos, dist, radius, cs, cur + [k], j)
  {
    LinkedAppend(pos, dist, radius, cur, j, k);
    NoDupAppend(Flatten(cs) + cur, k);
    assert Flatten(cs) + cur + [k] == Flatten(cs) + (cur + [k]);
  }

  /** A cluster grown until every neighbour of every member has been claimed
      is closed, provided the clusters claimed before it are closed: a
      neighbour claimed by an earlier cluster would, by symmetry, have pulled
      the member into that earlier cluster. */
  lemma GrownClusterClosed(pos: seq<Coord>, dist: (Coord, Coord) -> real, radius: real,
                           cs: seq<seq<nat>>, cur: seq<nat>)
    requires IsDistance(dist)
    requires NoDup(Flatten(cs) + cur)
    requires forall c :: 0 <= c < |cs| ==> Closed(pos, dist, radius, cs[c])
    requires Scanned(pos, dist, radius, cs, cur, |cur|)
    ensures Closed(pos, dist, radius, cur)
  {
    NoDupConcat(Flatten(cs), cur);
    forall a: nat, b: nat | a in cur && Near(pos, dist, radius, a, b)
      ensures b in cur
    {
      GrownNeighbourStays(pos, dist, radius, cs, cur, a, b);
    }
  }

  /** One neighbour b of a member a of the grown cluster: it was claimed
      somewhere, and not by an earlier cluster, since that cluster would then
      hold a as well. */
  lemma GrownNeighbourStays(pos: seq<Coord>, dist: (Coord, Coord) -> real, radius: real,
                            cs: seq<seq<nat>>, cur: seq<nat>, a: nat, b: nat)
    requires IsDistance(dist)
    requires forall x :: x in Flatten(cs) ==> x !in cur
    requires forall c :: 0 <= c < |cs| ==> Closed(pos, dist, radius, cs[c])
    requires Scanned(pos, dist, radius, cs, cur, |cur|)
    requires a in cur && Near(pos, dist, radius, a, b)
    ensures b in cur
  {
    var m :| 0 <= m < |cur| && cur[m] == a;
    assert b in Flatten(cs) + cur;
    assert Near(pos, dist, radius, b, a);
    FlattenClosed(pos, dist, radius, cs, b, a);
  }

  /** Closing a grown cluster: appended to the complete clusters, they still
      form closed, linked, seed-ordered clusters without duplicates. */
  lemma FinishCluster(pos: seq<Coord>, dist: (Coord, Coord) -> real, radius: real,
                      cs: seq<seq<nat>>, cur: seq<nat>, seed: nat)
    requires IsDistance(dist)
    requires Growing(pos, dist, radius, cs, cur, seed)
    requires Scanned(pos, dist, radius, cs, cur, |cur|)
    requires forall c :: 0 <= c < |cs| ==>
      |cs[c]| > 0 && cs[c][0] < seed &&
      Closed(pos, dist, radius, cs[c]) && Linked(pos, dist, radius, cs[c])
    requires SeedOrdered(cs)
    ensures Flatten(cs + [cur]) == Flatten(cs) + cur
    ensures forall c :: 0 <= c < |cs + [cur]| ==>
      |(cs + [cur])[c]| > 0 && (cs + [cur])[c][0] <= seed &&
      Closed(pos, dist, radius, (cs + [cur])[c]) && Linked(pos, dist, radius, (cs + [cur])[c])
    ensures SeedOrdered(cs + [cur])
  {
    GrownClusterClosed(pos, dist, radius, cs, cur);
    FlattenAppend(cs, cur);
    assert forall m :: 0 <= m < |cur| ==> seed <= cur[m];
    AppendedClustersValid(pos, dist, radius, cs, cur, seed);
    AppendedSeedOrdered(cs, cur, seed);
  }

  lemma AppendedClustersValid(pos: seq<Coord>, dist: (Coord, Coord) -> real, radius: real,
                              cs: seq<seq<nat>>, cur: seq<nat>, seed: nat)
    requires |cur| > 0 && cur[0] == seed
    requires Closed(pos, dist, radius, cur) && Linked(pos, dist, radius, cur)
    requires forall c :: 0 <= c < |cs| ==>
      |cs[c]| > 0 && cs[c][0] < seed &&
      Closed(pos, dist, radius, cs[c]) && Linked(pos, dist, radius, cs[c])
    ensures forall c :: 0 <= c < |cs + [cur]| ==>
      |(cs + [cur])[c]| > 0 && (cs + [cur])[c][0] <= seed &&
      Closed(pos, dist, radius, (cs + [cur])[c]) && Linked(pos, dist, radius, (cs + [cur])[c])
  {
    var all := cs + [cur];
    forall c | 0 <= c < |all|
      ensures |all[c]| > 0 && all[c][0] <= seed &&
              Closed(pos, dist, radius, all[c]) && Linked(pos, dist, radius, all[c])
    {
      if c < |cs| {
        assert all[c] == cs[c];
      } else {
        assert all[c] == cur;
      }
    }
  }

  lemma AppendedSeedOrdered(cs: seq<seq<nat>>, cur: seq<nat>, seed: nat)
    requires SeedOrdered(cs)
    requires |cur| > 0 && cur[0] == seed
    requires forall m :: 0 <= m < |cur| ==> seed <= cur[m]
    requires forall c :: 0 <= c < |cs| ==> |cs[c]| > 0 && cs[c][0] < seed
    ensures SeedOrdered(cs + [cur])
  {
    var all := cs + [cur];
    forall c | 0 <= c < |all|
      ensures |all[c]| > 0 && forall x :: x in all[c] ==> all[c][0] <= x
    {
      if c < |cs| {
        assert all[c] == cs[c];
      } else {
        assert all[c] == cur;
      }
    }
    forall c1, c2 | 0 <= c1 < c2 < |all| && |all[c1]| > 0 && |all[c2]| > 0
      ensures all[c1][0] < all[c2][0]
    {
      assert all[c1] == cs[c1];
      if c2 < |cs| {
        assert all[c2] == cs[c2];
      } else {
        assert all[c2] == cur;
      }
    }
  }

  /** The outer loop's invariant after the seeds before i have been tried:
      the groups so far are closed, linked, seed-ordered clusters below the
      seed i, without duplicates, and every index below i is grouped. */
  ghost predicate GroupedBelow(pos: seq<Coord>, dist: (Coord, Coord) -> real, radius: real,
                               cs: seq<seq<nat>>, i: nat) {
    (forall k :: k in Flatten(cs) ==> k < |pos|) &&
    NoDup(Flatten(cs)) &&
    (forall c :: 0 <= c < |cs| ==>
      |cs[c]| > 0 && cs[c][0] < i &&
      Closed(pos, dist, radius, cs[c]) && Linked(pos, dist, radius, cs[c])) &&
    SeedOrdered(cs) &&
    (forall k :: 0 <= k < i ==> k in Flatten(cs))
  }

  lemma GroupedAtStart(pos: seq<Coord>, dist: (Coord, Coord) -> real, radius: real)
    ensures GroupedBelow(pos, dist, radius, [], 0)
  {
    assert Flatten([]) == [];
  }

  /** An index already claimed opens no group. */
  lemma GroupedSkip(pos: seq<Coord>, dist: (Coord, Coord) -> real, radius: real,
                    cs: seq<seq<nat>>, i: nat)
    requires GroupedBelow(pos, dist, radius, cs, i) && i in Flatten(cs)
    ensures GroupedBelow(pos, dist, radius, cs, i + 1)
  {
  }

  /** A cluster grown from the unclaimed seed i and fully scanned joins the
      groups. */
  lemma GroupedAppend(pos: seq<Coord>, dist: (Coord, Coord) -> real, radius: real,
                      cs: seq<seq<nat>>, cur: seq<nat>, i: nat)
    requires IsDistance(dist)
    requires GroupedBelow(pos, dist, radius, cs, i)
    requires Growing(pos, dist, radius, cs, cur, i)
    requires Scanned(pos, dist, radius, cs, cur, |cur|)
    ensures Flatten(cs + [cur]) == Flatten(cs) + cur
    ensures GroupedBelow(pos, dist, radius, cs + [cur], i + 1)
  {
    FinishCluster(pos, dist, radius, cs, cur, i);
    var all := cs + [cur];
    assert forall k :: k in Flatten(all) ==> k < |pos| by {
      forall k | k in Flatten(all) ensures k < |pos| {
        if k !in Flatten(cs) {
          var m :| 0 <= m < |cur| && cur[m] == k;
        }
      }
    }
    assert NoDup(Flatten(all));
    assert forall k :: 0 <= k < i + 1 ==> k in Flatten(all) by {
      forall k | 0 <= k < i + 1 ensures k in Flatten(all) {
        if k == i {
          assert cur[0] == i;
        }
      }
    }
  }

  /** After every index has been tried the groups partition the hotspots. */
  lemma GroupedAll(pos: seq<Coord>, dist: (Coord, Coord) -> real, radius: real, cs: seq<seq<nat>>)
    requires GroupedBelow(pos, dist, radius, cs, |pos|)
    ensures ClosedLinkedPartition(pos, dist, radius, cs) && SeedOrdered(cs)
  {
  }

  /** Walking back from any member of a linked cluster c1 that lies in a
      closed cluster c2 reaches the seed of c1, which therefore lies in c2. */
  lemma {:induction false} SeedInside(pos: seq<Coord>, dist: (Coord, Coord) -> real, radius: real,
                                      c1: seq<nat>, c2: seq<nat>, m: nat)
    requires IsDistance(dist)
    requires Linked(pos, dist, radius, c1) && Closed(pos, dist, radius, c2)
    requires m < |c1| && c1[m] in c2
    ensures c1[0] in c2
    decreases m
  {
    if m > 0 {
      assert Reached(pos, dist, radius, c1, m);
      var p :| 0 <= p < m && Near(pos, dist, radius, c1[p], c1[m]);
      assert Near(pos, dist, radius, c1[m], c1[p]);
      SeedInside(pos, dist, radius, c1, c2, p);
    }
  }

  /** If the seed of a linked cluster c1 lies in a closed cluster c2, so do
      the first m members of c1. */
  lemma {:induction false} PrefixInside(pos: seq<Coord>, dist: (Coord, Coord) -> real, radius: real,
                                        c1: seq<nat>, c2: seq<nat>, m: nat)
    requires Linked(pos, dist, radius, c1) && Closed(pos, dist, radius, c2)
    requires |c1| > 0 && c1[0] in c2 && m <= |c1|
    ensures forall q :: 0 <= q < m ==> c1[q] in c2
  {
    if m > 1 {
      PrefixInside(pos, dist, radius, c1, c2, m - 1);
      assert Reached(pos, dist, radius, c1, m - 1);
      var p :| 0 <= p < m - 1 && Near(pos, dist, radius, c1[p], c1[m - 1]);
      assert c1[p] in c2;
    }
  }

  /** A linked cluster that shares one member with a closed cluster lies
      entirely inside it. */
  lemma LinkedWithinClosed(pos: seq<Coord>, dist: (Coord, Coord) -> real, radius: real,
                           c1: seq<nat>, c2: seq<nat>, m: nat)
    requires IsDistance(dist)
    requires Linked(pos, dist, radius, c1) && Closed(pos, dist, radius, c2)
    requires m < |c1| && c1[m] in c2
    ensures forall x :: x in c1 ==> x in c2
  {
    SeedInside(pos, dist, radius, c1, c2, m);
    PrefixInside(pos, dist, radius, c1, c2, |c1|);
  }

  /** x and y share a cluster of cs. */
  ghost predicate Together(cs: seq<seq<nat>>, x: nat, y: nat) {
    exists c :: 0 <= c < |cs| && x in cs[c] && y in cs[c]
  }

  ghost predicate ClosedLinkedPartition(pos: seq<Coord>, dist: (Coord, Coord) -> real, radius: real,
                                        cs: seq<seq<nat>>) {
    Partitions(cs, |pos|) &&
    forall c :: 0 <= c < |cs| ==> Closed(pos, dist, radius, cs[c]) && Linked(pos, dist, radius, cs[c])
  }

  lemma TogetherTransfers(pos: seq<Coord>, dist: (Coord, Coord) -> real, radius: real,
                          cs1: seq<seq<nat>>, cs2: seq<seq<nat>>, x: nat, y: nat)
    requires IsDistance(dist)
    requires ClosedLinkedPartition(pos, dist, radius, cs1)
    requires ClosedLinkedPartition(pos, dist, radius, cs2)
    requires Together(cs1, x, y)
    ensures Together(cs2, x, y)
  {
    var c :| 0 <= c < |cs1| && x in cs1[c] && y in cs1[c];
    InFlatten(cs1, x);
    assert x < |pos|;
    InFlatten(cs2, x);
    var d :| 0 <= d < |cs2| && x in cs2[d];
    var m :| 0 <= m < |cs1[c]| && cs1[c][m] == x;
    LinkedWithinClosed(pos, dist, radius, cs1[c], cs2[d], m);
    assert y in cs2[d];
  }

  /** The grouping is determined by the neighbour relation alone: any two
      partitions into closed, linked clusters put the same hotspots together,
      whatever order the hotspots were scanned in. */
  lemma GroupingDetermined(pos: seq<Coord>, dist: (Coord, Coord) -> real, radius: real,
                           cs1: seq<seq<nat>>, cs2: seq<seq<nat>>, x: nat, y: nat)
    requires IsDistance(dist)
    requires ClosedLinkedPartition(pos, dist, radius, cs1)
    requires ClosedLinkedPartition(pos, dist, radius, cs2)
    ensures Together(cs1, x, y) <==> Together(cs2, x, y)
  {
    if Together(cs1, x, y) {
      TogetherTransfers(pos, dist, radius, cs1, cs2, x, y);
    }
    if Together(cs2, x, y) {
      TogetherTransfers(pos, dist, radius, cs2, cs1, x, y);
    }
  }
}
