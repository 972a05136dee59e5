/** The batch pipeline's proximity clusterer (ml/fire_clustering.py): hotspots
    are grouped by growing each group from its seed until no unclaimed hotspot
    lies within the radius of a member, each group is summarised into a zone,
    and the five zones with the largest rounded total FRP are kept. */
module ClusteringPy {
  import opened Common
  import opened Ranking
  import opened Proximity

  /** A hotspot record as the clusterer reads it: its position, and an frp and
      a confidence field that may be missing from the record. */
  datatype Fire = Fire(position: Coord, frp: Option<real>, confidence: Option<real>)

  /** One summarised cluster. */
  datatype Zone = Zone(id: nat, center: Coord, fireCount: nat, totalFrp: real,
                       avgConfidence: real, severity: Severity, radiusKm: real)

  const DefaultRadiusKm: real := 20.0
  const MaxZones: nat := 5

  function Positions(fires: seq<Fire>): (pos: seq<Coord>)
    ensures |pos| == |fires|
    ensures forall i :: 0 <= i < |fires| ==> pos[i] == fires[i].position
  {
    seq(|fires|, i requires 0 <= i < |fires| => fires[i].position)
  }

  /** The grouping loop. Every group is a list of hotspot indices in the order
      they were claimed; the first is the seed that opened the group. */
  method GroupFires(fires: seq<Fire>, radiusKm: real, dist: (Coord, Coord) -> real)
    returns (groups: seq<seq<nat>>)
    requires IsDistance(dist)
    ensures Partitions(groups, |fires|)
    ensures forall c :: 0 <= c < |groups| ==>
      Closed(Positions(fires), dist, radiusKm, groups[c]) &&
      Linked(Positions(fires), dist, radiusKm, groups[c])
    ensures SeedOrdered(groups)
  {
    var n := |fires|;
    ghost var pos := Positions(fires);
    groups := [];
    if n == 0 {
      return;
    }
    var visited := new bool[n](_ => false);
    GroupedAtStart(pos, dist, radiusKm);
    for i := 0 to n
      invariant forall k :: 0 <= k < n ==> (visited[k] <==> k in Flatten(groups))
      invariant GroupedBelow(pos, dist, radiusKm, groups, i)
    {
      if !visited[i] {
        var cur := GrowGroup(fires, radiusKm, dist, visited, groups, i);
        GroupedAppend(pos, dist, radiusKm, groups, cur, i);
        groups := groups + [cur];
      } else {
        GroupedSkip(pos, dist, radiusKm, groups, i);
      }
    }
    GroupedAll(pos, dist, radiusKm, groups);
  }

  /** The `while j < len(cluster)` loop of one group: seeded with the
      unvisited index seed, it scans the members in order, claiming their
      unvisited neighbours. */
  method GrowGroup(fires: seq<Fire>, radiusKm: real, dist: (Coord, Coord) -> real,
                   visited: array<bool>, ghost groups: seq<seq<nat>>, seed: nat)
    returns (cur: seq<nat>)
    requires visited.Length == |fires|
    requires seed < |fires| && seed !in Flatten(groups) && NoDup(Flatten(groups))
    requires forall k :: 0 <= k < seed ==> k in Flatten(groups)
    requires forall k :: k in Flatten(groups) ==> k < |fires|
    requires forall k :: 0 <= k < |fires| ==> (visited[k] <==> k in Flatten(groups))
    modifies visited
    ensures Growing(Positions(fires), dist, radiusKm, groups, cur, seed)
    ensures forall k :: 0 <= k < |fires| ==> (visited[k] <==> k in Flatten(groups) + cur)
    ensures Scanned(Positions(fires), dist, radiusKm, groups, cur, |cur|)
  {
    var n := |fires|;
    ghost var pos := Positions(fires);
    StartGrowing(pos, dist, radiusKm, groups, seed);
    cur := [seed];
    visited[seed] := true;
    var j := 0;
    while j < |cur|
      invariant Growing(pos, dist, radiusKm, groups, cur, seed)
      invariant forall k :: 0 <= k < n ==> (visited[k] <==> k in Flatten(groups) + cur)
      invariant j <= |cur| && Scanned(pos, dist, radiusKm, groups, cur, j)
      decreases n - j
    {
      NoDupBounded(Flatten(groups) + cur, n);
      cur := ClaimNeighbours(fires, radiusKm, dist, visited, groups, cur, seed, j);
      j := j + 1;
    }
  }

  /** One pass of the innermost loop: every unclaimed hotspot within the
      radius of member j is claimed and appended to the group. */
  method ClaimNeighbours(fires: seq<Fire>, radiusKm: real, dist: (Coord, Coord) -> real,
                         visited: array<bool>, ghost groups: seq<seq<nat>>, cur0: seq<nat>,
                         ghost seed: nat, j: nat)
    returns (cur: seq<nat>)
    requires visited.Length == |fires|
    requires Growing(Positions(fires), dist, radiusKm, groups, cur0, seed)
    requires forall k :: 0 <= k < |fires| ==> (visited[k] <==> k in Flatten(groups) + cur0)
    requires j < |cur0| && Scanned(Positions(fires), dist, radiusKm, groups, cur0, j)
    modifies visited
    ensures Growing(Positions(fires), dist, radiusKm, groups, cur, seed)
    ensures forall k :: 0 <= k < |fires| ==> (visited[k] <==> k in Flatten(groups) + cur)
    ensures j < |cur| && Scanned(Positions(fires), dist, radiusKm, groups, cur, j + 1)
  {
    ghost var pos := Positions(fires);
    var n := |fires|;
    cur := cur0;
    var a := cur[j];
    for k := 0 to n
      invariant Growing(pos, dist, radiusKm, groups, cur, seed)
      invariant forall k :: 0 <= k < n ==> (visited[k] <==> k in Flatten(groups) + cur)
      invariant j < |cur| && cur[j] == a && Scanned(pos, dist, radiusKm, groups, cur, j)
      invariant forall b: nat :: b < k && Near(pos, dist, radiusKm, a, b) ==> visited[b]
    {
      if !visited[k] {
        if dist(fires[a].position, fires[k].position) <= radiusKm {
          ClaimStep(pos, dist, radiusKm, groups, cur, seed, j, k);
          cur := cur + [k];
          visited[k] := true;
        }
      }
    }
    forall m: nat, b: nat | m < j + 1 && m < |cur| && Near(pos, dist, radiusKm, cur[m], b)
      ensures b in Flatten(groups) + cur
    {
      if m == j {
        assert visited[b];
      }
    }
  }

  /** frp defaults to 10 when the record has none. */
  function FrpOf(f: Fire): real {
    match f.frp
    case Some(v) => v
    case None => 10.0
  }

  /** confidence defaults to 50 when the record has none. */
  function ConfidenceOf(f: Fire): real {
    match f.confidence
    case Some(v) => v
    case None => 50.0
  }

  function Lat(f: Fire): real { f.position.lat }
  function Lon(f: Fire): real { f.position.lon }

  /** The hotspot records of one group, in claiming order. */
  function Members(fires: seq<Fire>, group: seq<nat>): (ms: seq<Fire>)
    requires forall m :: 0 <= m < |group| ==> group[m] < |fires|
    ensures |ms| == |group|
    ensures forall m :: 0 <= m < |group| ==> ms[m] == fires[group[m]]
  {
    seq(|group|, m requires 0 <= m < |group| => fires[group[m]])
  }

  /** Severity bands on the unrounded total FRP. */
  function SeverityOf(totalFrp: real): Severity {
    if totalFrp > 500.0 then Critical
    else if totalFrp > 200.0 then High
    else if totalFrp > 50.0 then Moderate
    else Low
  }

  /** The zone record of group number idx. */
  function Summarize(fires: seq<Fire>, group: seq<nat>, idx: nat, radiusKm: real): Zone
    requires |group| > 0 && forall m :: 0 <= m < |group| ==> group[m] < |fires|
  {
    var ms := Members(fires, group);
    var total := SumOf(ms, FrpOf);
    Zone(idx,
         Coord(PyRound(MeanOf(ms, Lat), 4), PyRound(MeanOf(ms, Lon), 4)),
         |group|,
         PyRound(total, 1),
         PyRound(MeanOf(ms, ConfidenceOf), 1),
         SeverityOf(total),
         radiusKm)
  }

  ghost predicate WellFormed(fires: seq<Fire>, groups: seq<seq<nat>>) {
    forall c :: 0 <= c < |groups| ==> |groups[c]| > 0 && forall m :: 0 <= m < |groups[c]| ==> groups[c][m] < |fires|
  }

  /** All zone records, in group order, their ids being the group numbers. */
  function Summaries(fires: seq<Fire>, groups: seq<seq<nat>>, radiusKm: real): (zs: seq<Zone>)
    requires WellFormed(fires, groups)
    ensures |zs| == |groups|
    ensures forall c :: 0 <= c < |groups| ==> zs[c] == Summarize(fires, groups[c], c, radiusKm)
  {
    seq(|groups|, c requires 0 <= c < |groups| => Summarize(fires, groups[c], c, radiusKm))
  }

  /** The ranking key: the rounded total FRP that the zone record carries. */
  function TotalFrpKey(z: Zone): real { z.totalFrp }

  lemma PartitionWellFormed(fires: seq<Fire>, groups: seq<seq<nat>>)
    requires Partitions(groups, |fires|)
    ensures WellFormed(fires, groups)
  {
    forall c, m | 0 <= c < |groups| && 0 <= m < |groups[c]|
      ensures groups[c][m] < |fires|
    {
      InFlatten(groups, groups[c][m]);
    }
  }

  /** cluster_fires: group, summarise every group, then keep the five zones
      with the largest rounded total FRP, ties in group order. */
  method ClusterFires(fires: seq<Fire>, radiusKm: real, dist: (Coord, Coord) -> real)
    returns (zones: seq<Zone>, ghost groups: seq<seq<nat>>)
    requires IsDistance(dist)
    ensures Partitions(groups, |fires|) && SeedOrdered(groups)
    ensures forall c :: 0 <= c < |groups| ==>
      Closed(Positions(fires), dist, radiusKm, groups[c]) &&
      Linked(Positions(fires), dist, radiusKm, groups[c])
    ensures WellFormed(fires, groups)
    ensures zones == Take(SortDesc(Summaries(fires, groups, radiusKm), TotalFrpKey), MaxZones)
  {
    if |fires| == 0 {
      groups := [];
      zones := [];
      return;
    }
    var gs := GroupFires(fires, radiusKm, dist);
    groups := gs;
    PartitionWellFormed(fires, gs);
    var processed: seq<Zone> := [];
    for idx := 0 to |gs|
      invariant |processed| == idx
      invariant forall c :: 0 <= c < idx ==> processed[c] == Summarize(fires, gs[c], c, radiusKm)
    {
      processed := processed + [Summarize(fires, gs[idx], idx, radiusKm)];
    }
    assert processed == Summaries(fires, gs, radiusKm);
    zones := Take(SortDesc(processed, TotalFrpKey), MaxZones);
  }

  /** run_clustering with the records handed in: the default 20 km radius. */
  method RunClustering(fires: seq<Fire>, dist: (Coord, Coord) -> real)
    returns (zones: seq<Zone>, ghost groups: seq<seq<nat>>)
    requires IsDistance(dist)
    ensures ClosedLinkedPartition(Positions(fires), dist, DefaultRadiusKm, groups) && SeedOrdered(groups)
    ensures WellFormed(fires, groups)
    ensures zones == Take(SortDesc(Summaries(fires, groups, DefaultRadiusKm), TotalFrpKey), MaxZones)
  {
    zones, groups := ClusterFires(fires, DefaultRadiusKm, dist);
  }

  /** Nothing to group, nothing returned. */
  lemma NoFiresNoZones(fires: seq<Fire>, groups: seq<seq<nat>>, radiusKm: real)
    requires |fires| == 0 && Partitions(groups, 0)
    ensures WellFormed(fires, groups)
    ensures Take(SortDesc(Summaries(fires, groups, radiusKm), TotalFrpKey), MaxZones) == []
  {
    if groups != [] {
      InFlatten(groups, groups[0][0]);
    }
  }

  /** At most five zones come back, by non-increasing rounded total FRP, and
      none of the zones left out has a larger rounded total than a kept one. */
  lemma TopZones(fires: seq<Fire>, groups: seq<seq<nat>>, radiusKm: real)
    requires WellFormed(fires, groups)
    ensures var all := Summaries(fires, groups, radiusKm);
      var zones := Take(SortDesc(all, TotalFrpKey), MaxZones);
      |zones| == (if |groups| < MaxZones then |groups| else MaxZones) &&
      SortedDesc(zones, TotalFrpKey) &&
      (forall z, w :: z in zones && w in multiset(all) - multiset(zones) ==> TotalFrpKey(z) >= TotalFrpKey(w))
  {
    var all := Summaries(fires, groups, radiusKm);
    TopDominatesDropped(all, TotalFrpKey, MaxZones);
  }

  /** Each kept zone is the summary of the group whose number it carries. */
  lemma ZonesAreGroupSummaries(fires: seq<Fire>, groups: seq<seq<nat>>, radiusKm: real, z: Zone)
    requires WellFormed(fires, groups)
    requires z in Take(SortDesc(Summaries(fires, groups, radiusKm), TotalFrpKey), MaxZones)
    ensures z.id < |groups| && z == Summarize(fires, groups[z.id], z.id, radiusKm)
  {
    var all := Summaries(fires, groups, radiusKm);
    KeptFromInput(all, TotalFrpKey, MaxZones, z);
    var c :| 0 <= c < |all| && all[c] == z;
  }

  lemma SeverityMonotone(t1: real, t2: real)
    requires t1 <= t2
    ensures Rank(SeverityOf(t1)) <= Rank(SeverityOf(t2))
  {
  }

  /** The severity is decided on the unrounded total, yet it never contradicts
      the rounded total the zone displays: a Critical zone shows at least
      500.0, a High one at least 200.0, a Moderate one at least 50.0, and a
      Low one at most 50.0 (a displayed 500.0 may be High or Critical). */
  lemma SeverityMatchesDisplayedTotal(fires: seq<Fire>, group: seq<nat>, idx: nat, radiusKm: real)
    requires |group| > 0 && forall m :: 0 <= m < |group| ==> group[m] < |fires|
    ensures var z := Summarize(fires, group, idx, radiusKm);
      (z.severity == Critical ==> z.totalFrp >= 500.0) &&
      (z.severity == High ==> 200.0 <= z.totalFrp <= 500.0) &&
      (z.severity == Moderate ==> 50.0 <= z.totalFrp <= 200.0) &&
      (z.severity == Low ==> z.totalFrp <= 50.0)
  {
    var total := SumOf(Members(fires, group), FrpOf);
    if total > 500.0 {
      PyRoundAtLeast(total, 1, 500);
    } else if total > 200.0 {
      PyRoundAtLeast(total, 1, 200);
      PyRoundAtMost(total, 1, 500);
    } else if total > 50.0 {
      PyRoundAtLeast(total, 1, 50);
      PyRoundAtMost(total, 1, 200);
    } else {
      PyRoundAtMost(total, 1, 50);
    }
  }

  /** When every member lies in the box [latLo, latHi] x [lonLo, lonHi], with
      corners given to four decimals (in units of 0.0001 degree), so does the
      rounded centre of the zone. */
  lemma CenterInBox(fires: seq<Fire>, group: seq<nat>, idx: nat, radiusKm: real,
                    latLo: int, latHi: int, lonLo: int, lonHi: int)
    requires |group| > 0 && forall m :: 0 <= m < |group| ==> group[m] < |fires|
    requires forall m :: 0 <= m < |group| ==>
      latLo as real / Scale(4) <= fires[group[m]].position.lat <= latHi as real / Scale(4) &&
      lonLo as real / Scale(4) <= fires[group[m]].position.lon <= lonHi as real / Scale(4)
    ensures var c := Summarize(fires, group, idx, radiusKm).center;
      latLo as real / Scale(4) <= c.lat <= latHi as real / Scale(4) &&
      lonLo as real / Scale(4) <= c.lon <= lonHi as real / Scale(4)
  {
    var ms := Members(fires, group);
    MeanOfBounds(ms, Lat, latLo as real / Scale(4), latHi as real / Scale(4));
    MeanOfBounds(ms, Lon, lonLo as real / Scale(4), lonHi as real / Scale(4));
    PyRoundWithin(MeanOf(ms, Lat), 4, latLo, latHi);
    PyRoundWithin(MeanOf(ms, Lon), 4, lonLo, lonHi);
  }

  /** Confidences on the 0..100 scale give an average confidence on it too. */
  lemma AverageConfidenceInRange(fires: seq<Fire>, group: seq<nat>, idx: nat, radiusKm: real)
    requires |group| > 0 && forall m :: 0 <= m < |group| ==> group[m] < |fires|
    requires forall m :: 0 <= m < |group| ==> 0.0 <= ConfidenceOf(fires[group[m]]) <= 100.0
    ensures 0.0 <= Summarize(fires, group, idx, radiusKm).avgConfidence <= 100.0
  {
    var ms := Members(fires, group);
    MeanOfBounds(ms, ConfidenceOf, 0.0, 100.0);
    PyRoundAtLeast(MeanOf(ms, ConfidenceOf), 1, 0);
    PyRoundAtMost(MeanOf(ms, ConfidenceOf), 1, 100);
  }

  function FireCountOf(z: Zone): real { z.fireCount as real }

  /** Before the cut to five, the zones' fire counts add up to the number of
      hotspots: every hotspot is counted in exactly one zone. */
  lemma {:induction false} FireCountsAddUp(fires: seq<Fire>, groups: seq<seq<nat>>, radiusKm: real)
    requires WellFormed(fires, groups)
    ensures SumOf(Summaries(fires, groups, radiusKm), FireCountOf) == SumSizes(groups) as real
  {
    if groups != [] {
      var init := groups[..|groups| - 1];
      assert WellFormed(fires, init);
      FireCountsAddUp(fires, init, radiusKm);
      var all := Summaries(fires, groups, radiusKm);
      assert all[..|all| - 1] == Summaries(fires, init, radiusKm);
    }
  }

  lemma FireCountsOfPartition(fires: seq<Fire>, groups: seq<seq<nat>>, radiusKm: real)
    requires Partitions(groups, |fires|)
    ensures WellFormed(fires, groups)
    ensures SumOf(Summaries(fires, groups, radiusKm), FireCountOf) == |fires| as real
  {
    PartitionWellFormed(fires, groups);
    FireCountsAddUp(fires, groups, radiusKm);
    PartitionSizes(groups, |fires|);
  }
}
