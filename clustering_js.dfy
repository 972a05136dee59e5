/** The dashboard's proximity clusterer (src/utils/fireClusters.js): the same
    grouping as the batch clusterer, written with a visited set and a FIFO
    queue, and its own zone record (string ids, colours, Math.round, an frp
    default of 20 and a confidence score of 90 for 'High' and 70 otherwise). */
module ClusteringJs {
  import opened Common
  import opened Ranking
  import opened Proximity

  /** A hotspot record as the clusterer reads it. frp may be missing; the
      confidence is the label string ('High', 'Nominal', ...). */
  datatype Fire = Fire(position: Coord, frp: Option<real>, confidence: string)

  datatype Zone = Zone(id: string, center: Coord, fireCount: nat, totalFrp: int,
                       avgConfidence: int, severity: Severity, color: string, radiusKm: real)

  const DefaultRadiusKm: real := 20.0
  const MaxZones: nat := 5

  function Positions(fires: seq<Fire>): (pos: seq<Coord>)
    ensures |pos| == |fires|
    ensures forall i :: 0 <= i < |fires| ==> pos[i] == fires[i].position
  {
    seq(|fires|, i requires 0 <= i < |fires| => fires[i].position)
  }

  /** The two nested forEach loops: groups of indices, each in the order its
      members left the queue. */
  method GroupFires(fires: seq<Fire>, radiusKm: real, dist: (Coord, Coord) -> real)
    returns (groups: seq<seq<nat>>)
    requires IsDistance(dist)
    ensures Partitions(groups, |fires|)
    ensures forall c :: 0 <= c < |groups| ==>
      Closed(Positions(fires), dist, radiusKm, groups[c]) &&
      Linked(Positions(fires), dist, radiusKm, groups[c])
    ensures SeedOrdered(groups)
  {
    var n := |fires|;
    ghost var pos := Positions(fires);
    var visited: set<nat> := {};
    groups := [];
    GroupedAtStart(pos, dist, radiusKm);
    for i := 0 to n
      invariant forall k: nat :: k in visited <==> k in Flatten(groups)
      invariant GroupedBelow(pos, dist, radiusKm, groups, i)
    {
      if i !in visited {
        var cluster;
        visited, cluster := GrowCluster(fires, radiusKm, dist, visited, groups, i);
        GroupedAppend(pos, dist, radiusKm, groups, cluster, i);
        groups := groups + [cluster];
      } else {
        GroupedSkip(pos, dist, radiusKm, groups, i);
      }
    }
    GroupedAll(pos, dist, radiusKm, groups);
  }

  /** The while loop of one cluster: seeded with hotspot seed, it dequeues
      members until the queue is empty, enqueueing each one's unvisited
      neighbours. */
  method GrowCluster(fires: seq<Fire>, radiusKm: real, dist: (Coord, Coord) -> real,
                     visited0: set<nat>, ghost groups: seq<seq<nat>>, seed: nat)
    returns (visited: set<nat>, cluster: seq<nat>)
    requires seed < |fires| && seed !in Flatten(groups) && NoDup(Flatten(groups))
    requires forall k :: 0 <= k < seed ==> k in Flatten(groups)
    requires forall k :: k in Flatten(groups) ==> k < |fires|
    requires forall k: nat :: k in visited0 <==> k in Flatten(groups)
    ensures Growing(Positions(fires), dist, radiusKm, groups, cluster, seed)
    ensures forall k: nat :: k in visited <==> k in Flatten(groups) + cluster
    ensures Scanned(Positions(fires), dist, radiusKm, groups, cluster, |cluster|)
  {
    var n := |fires|;
    ghost var pos := Positions(fires);
    StartGrowing(pos, dist, radiusKm, groups, seed);
    cluster := [];
    var queue: seq<nat> := [seed];
    visited := visited0 + {seed};
    while |queue| > 0
      invariant Growing(pos, dist, radiusKm, groups, cluster + queue, seed)
      invariant forall k: nat :: k in visited <==> k in Flatten(groups) + (cluster + queue)
      invariant Scanned(pos, dist, radiusKm, groups, cluster + queue, |cluster|)
      decreases n - |cluster|
    {
      NoDupBounded(Flatten(groups) + (cluster + queue), n);
      var current := queue[0];
      assert cluster + queue == (cluster + [current]) + queue[1..];
      queue := queue[1..];
      cluster := cluster + [current];
      visited, queue := EnqueueNeighbours(fires, radiusKm, dist, visited, groups, cluster, queue, seed);
    }
    assert cluster + queue == cluster;
  }

  /** The inner forEach: every unvisited hotspot within the radius of the
      member just dequeued (the last of cluster) is marked and enqueued. */
  method EnqueueNeighbours(fires: seq<Fire>, radiusKm: real, dist: (Coord, Coord) -> real,
                           visited0: set<nat>, ghost groups: seq<seq<nat>>, cluster: seq<nat>,
                           queue0: seq<nat>, ghost seed: nat)
    returns (visited: set<nat>, queue: seq<nat>)
    requires |cluster| > 0
    requires Growing(Positions(fires), dist, radiusKm, groups, cluster + queue0, seed)
    requires forall k: nat :: k in visited0 <==> k in Flatten(groups) + (cluster + queue0)
    requires Scanned(Positions(fires), dist, radiusKm, groups, cluster + queue0, |cluster| - 1)
    ensures Growing(Positions(fires), dist, radiusKm, groups, cluster + queue, seed)
    ensures forall k: nat :: k in visited <==> k in Flatten(groups) + (cluster + queue)
    ensures Scanned(Positions(fires), dist, radiusKm, groups, cluster + queue, |cluster|)
  {
    ghost var pos := Positions(fires);
    var n := |fires|;
    var current := cluster[|cluster| - 1];
    ghost var j := |cluster| - 1;
    visited, queue := visited0, queue0;
    for k := 0 to n
      invariant Growing(pos, dist, radiusKm, groups, cluster + queue, seed)
      invariant forall k: nat :: k in visited <==> k in Flatten(groups) + (cluster + queue)
      invariant (cluster + queue)[j] == current
      invariant Scanned(pos, dist, radiusKm, groups, cluster + queue, j)
      invariant forall b: nat :: b < k && Near(pos, dist, radiusKm, current, b) ==> b in visited
    {
      if k !in visited {
        if dist(fires[current].position, fires[k].position) <= radiusKm {
          ClaimStep(pos, dist, radiusKm, groups, cluster + queue, seed, j, k);
          assert (cluster + queue) + [k] == cluster + (queue + [k]);
          visited := visited + {k};
          queue := queue + [k];
        }
      }
    }
    forall m: nat, b: nat | m < |cluster| && m < |cluster + queue| && Near(pos, dist, radiusKm, (cluster + queue)[m], b)
      ensures b in Flatten(groups) + (cluster + queue)
    {
      if m == j {
        assert b in visited;
      }
    }
  }

  /** `f.frp || 20`: a missing or zero frp counts as 20. */
  function FrpOf(f: Fire): real {
    match f.frp
    case Some(v) => if v != 0.0 then v else 20.0
    case None => 20.0
  }

  /** 90 for a 'High' label, 70 for any other. */
  function ConfidenceScore(f: Fire): real {
    if f.confidence == "High" then 90.0 else 70.0
  }

  function Lat(f: Fire): real { f.position.lat }
  function Lon(f: Fire): real { f.position.lon }

  function Members(fires: seq<Fire>, group: seq<nat>): (ms: seq<Fire>)
    requires forall m :: 0 <= m < |group| ==> group[m] < |fires|
    ensures |ms| == |group|
    ensures forall m :: 0 <= m < |group| ==> ms[m] == fires[group[m]]
  {
    seq(|group|, m requires 0 <= m < |group| => fires[group[m]])
  }

  /** The colour each severity label is drawn in. */
  function Palette(s: Severity): string {
    match s
    case Critical => "#991b1b"
    case High => "#ef4444"
    case Moderate => "#f97316"
    case Low => "#10b981"
  }

  /** Severity and colour, chosen together on the unrounded total FRP. */
  function Classify(totalFrp: real): (Severity, string) {
    if totalFrp > 1000.0 then (Critical, "#991b1b")
    else if totalFrp > 400.0 then (High, "#ef4444")
    else if totalFrp > 100.0 then (Moderate, "#f97316")
    else (Low, "#10b981")
  }

  /** The zone record of group number idx (its centre is not rounded). */
  function Summarize(fires: seq<Fire>, group: seq<nat>, idx: nat, radiusKm: real): Zone
    requires |group| > 0 && forall m :: 0 <= m < |group| ==> group[m] < |fires|
  {
    var ms := Members(fires, group);
    var total := SumOf(ms, FrpOf);
    var (severity, color) := Classify(total);
    Zone("zone-" + NatToString(idx),
         Coord(MeanOf(ms, Lat), MeanOf(ms, Lon)),
         |group|,
         JsRound(total),
         JsRound(MeanOf(ms, ConfidenceScore)),
         severity,
         color,
         radiusKm)
  }

  ghost predicate WellFormed(fires: seq<Fire>, groups: seq<seq<nat>>) {
    forall c :: 0 <= c < |groups| ==> |groups[c]| > 0 && forall m :: 0 <= m < |groups[c]| ==> groups[c][m] < |fires|
  }

  /** clusters.map: one zone per group, in group order. */
  function Summaries(fires: seq<Fire>, groups: seq<seq<nat>>, radiusKm: real): (zs: seq<Zone>)
    requires WellFormed(fires, groups)
    ensures |zs| == |groups|
    ensures forall c :: 0 <= c < |groups| ==> zs[c] == Summarize(fires, groups[c], c, radiusKm)
  {
    seq(|groups|, c requires 0 <= c < |groups| => Summarize(fires, groups[c], c, radiusKm))
  }

  /** The comparator `b.totalFrp - a.totalFrp` ranks by the rounded total. */
  function TotalFrpKey(z: Zone): real { z.totalFrp as real }

  lemma PartitionWellFormed(fires: seq<Fire>, groups: seq<seq<nat>>)
    requires Partitions(groups, |fires|)
    ensures WellFormed(fires, groups)
  {
    forall c, m | 0 <= c < |groups| && 0 <= m < |groups[c]|
      ensures groups[c][m] < |fires|
    {
      InFlatten(groups, groups[c][m]);
    }
  }

  /** identifyFireClusters: a null or empty list gives no zones; otherwise
      group, summarise, and keep the five zones with the largest rounded
      total FRP, ties in group order. */
  method IdentifyFireClusters(fires: Option<seq<Fire>>, radiusKm: real, dist: (Coord, Coord) -> real)
    returns (zones: seq<Zone>, ghost groups: seq<seq<nat>>)
    requires IsDistance(dist)
    ensures fires.None? ==> zones == [] && groups == []
    ensures fires.Some? ==>
      Partitions(groups, |fires.value|) && SeedOrdered(groups) &&
      (forall c :: 0 <= c < |groups| ==>
        Closed(Positions(fires.value), dist, radiusKm, groups[c]) &&
        Linked(Positions(fires.value), dist, radiusKm, groups[c])) &&
      WellFormed(fires.value, groups) &&
      zones == Take(SortDesc(Summaries(fires.value, groups, radiusKm), TotalFrpKey), MaxZones)
  {
    if fires.None? || |fires.value| == 0 {
      zones, groups := [], [];
      return;
    }
    var fs := fires.value;
    var gs := GroupFires(fs, radiusKm, dist);
    groups := gs;
    PartitionWellFormed(fs, gs);
    zones := Take(SortDesc(Summaries(fs, gs, radiusKm), TotalFrpKey), MaxZones);
  }

  /** At most five zones, by non-increasing rounded total FRP, and no zone
      left out has a larger rounded total than a kept one. */
  lemma TopZones(fires: seq<Fire>, groups: seq<seq<nat>>, radiusKm: real)
    requires WellFormed(fires, groups)
    ensures var all := Summaries(fires, groups, radiusKm);
      var zones := Take(SortDesc(all, TotalFrpKey), MaxZones);
      |zones| == (if |groups| < MaxZones then |groups| else MaxZones) &&
      SortedDesc(zones, TotalFrpKey) &&
      (forall z, w :: z in zones && w in multiset(all) - multiset(zones) ==> TotalFrpKey(z) >= TotalFrpKey(w))
  {
    var all := Summaries(fires, groups, radiusKm);
    TopDominatesDropped(all, TotalFrpKey, MaxZones);
  }

  /** Each kept zone is the summary of a group, its id naming that group. */
  lemma ZonesAreGroupSummaries(fires: seq<Fire>, groups: seq<seq<nat>>, radiusKm: real, z: Zone)
    requires WellFormed(fires, groups)
    requires z in Take(SortDesc(Summaries(fires, groups, radiusKm), TotalFrpKey), MaxZones)
    ensures exists c :: (0 <= c < |groups| && z.id == "zone-" + NatToString(c) &&
                         z == Summarize(fires, groups[c], c, radiusKm))
  {
    var all := Summaries(fires, groups, radiusKm);
    KeptFromInput(all, TotalFrpKey, MaxZones, z);
    var c :| 0 <= c < |all| && all[c] == z;
  }

  /** A zone is always drawn in its severity's colour. */
  lemma ColorMatchesSeverity(fires: seq<Fire>, group: seq<nat>, idx: nat, radiusKm: real)
    requires |group| > 0 && forall m :: 0 <= m < |group| ==> group[m] < |fires|
    ensures var z := Summarize(fires, group, idx, radiusKm);
      z.color == Palette(z.severity)
  {
  }

  /** The severity is decided on the unrounded total but agrees with the
      rounded total the zone displays (a displayed 1000 may be High or
      Critical, and likewise at 400 and 100). */
  lemma SeverityMatchesDisplayedTotal(fires: seq<Fire>, group: seq<nat>, idx: nat, radiusKm: real)
    requires |group| > 0 && forall m :: 0 <= m < |group| ==> group[m] < |fires|
    ensures var z := Summarize(fires, group, idx, radiusKm);
      (z.severity == Critical ==> z.totalFrp >= 1000) &&
      (z.severity == High ==> 400 <= z.totalFrp <= 1000) &&
      (z.severity == Moderate ==> 100 <= z.totalFrp <= 400) &&
      (z.severity == Low ==> z.totalFrp <= 100)
  {
    var total := SumOf(Members(fires, group), FrpOf);
    JsRoundOfInt(1000);
    JsRoundOfInt(400);
    JsRoundOfInt(100);
    if total > 1000.0 {
      JsRoundMonotone(1000.0, total);
    } else if total > 400.0 {
      JsRoundMonotone(400.0, total);
      JsRoundMonotone(total, 1000.0);
    } else if total > 100.0 {
      JsRoundMonotone(100.0, total);
      JsRoundMonotone(total, 400.0);
    } else {
      JsRoundMonotone(total, 100.0);
    }
  }

  /** Severity grows with the total FRP. */
  lemma SeverityMonotone(t1: real, t2: real)
    requires t1 <= t2
    ensures Rank(Classify(t1).0) <= Rank(Classify(t2).0)
  {
  }

  /** The average confidence lies between 70 and 90. */
  lemma AverageConfidenceInRange(fires: seq<Fire>, group: seq<nat>, idx: nat, radiusKm: real)
    requires |group| > 0 && forall m :: 0 <= m < |group| ==> group[m] < |fires|
    ensures 70 <= Summarize(fires, group, idx, radiusKm).avgConfidence <= 90
  {
    var ms := Members(fires, group);
    MeanOfBounds(ms, ConfidenceScore, 70.0, 90.0);
    JsRoundMonotone(70.0, MeanOf(ms, ConfidenceScore));
    JsRoundMonotone(MeanOf(ms, ConfidenceScore), 90.0);
    JsRoundOfInt(70);
    JsRoundOfInt(90);
  }

  /** The unrounded centre lies in the bounding box of the members. */
  lemma CenterInBox(fires: seq<Fire>, group: seq<nat>, idx: nat, radiusKm: real,
                    latLo: real, latHi: real, lonLo: real, lonHi: real)
    requires |group| > 0 && forall m :: 0 <= m < |group| ==> group[m] < |fires|
    requires forall m :: 0 <= m < |group| ==>
      latLo <= fires[group[m]].position.lat <= latHi &&
      lonLo <= fires[group[m]].position.lon <= lonHi
    ensures var c := Summarize(fires, group, idx, radiusKm).center;
      latLo <= c.lat <= latHi && lonLo <= c.lon <= lonHi
  {
    var ms := Members(fires, group);
    MeanOfBounds(ms, Lat, latLo, latHi);
    MeanOfBounds(ms, Lon, lonLo, lonHi);
  }

  function FireCountOf(z: Zone): real { z.fireCount as real }

  /** Before the cut to five, the fire counts add up to the number of
      hotspots grouped. */
  lemma {:induction false} FireCountsAddUp(fires: seq<Fire>, groups: seq<seq<nat>>, radiusKm: real)
    requires WellFormed(fires, groups)
    ensures SumOf(Summaries(fires, groups, radiusKm), FireCountOf) == SumSizes(groups) as real
  {
    if groups != [] {
      var init := groups[..|groups| - 1];
      assert WellFormed(fires, init);
      FireCountsAddUp(fires, init, radiusKm);
      var all := Summaries(fires, groups, radiusKm);
      assert all[..|all| - 1] == Summaries(fires, init, radiusKm);
    }
  }
}
