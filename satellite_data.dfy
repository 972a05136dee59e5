/** The dashboard's fire feed (src/utils/satelliteData.js, fetchFireDataFeed):
    a three-tier fallback over a localStorage cache with a five-minute
    time-to-live, a "live" fetch that in this code base generates a
    simulated batch, and a pre-downloaded backup; then ranking by frp,
    north-west-only impact scores, the dashboard clusterer and a stubble
    share.

    The random draws (rnd(k) is the k-th call of Math.random()), the clock
    readings, the backup file's contents, toLocaleTimeString and the
    distance are parameters. */
module SatelliteData {
  import opened Common
  import opened Ranking
  import opened Proximity
  import ClusteringJs
  import FireEngine

  /** A hotspot as the feed carries it; frp may be missing in cached or
      backup data. */
  datatype FeedFire = FeedFire(id: string, position: Coord, intensity: real,
                               frp: Option<real>, confidence: string)

  /** `{ ...fire, impactScore }`. */
  datatype ProcessedFire = ProcessedFire(fire: FeedFire, impactScore: real)

  /** The 'nasa_fire_cache' entry: absent (null or empty), present but not
      JSON, or a batch with the epoch-millisecond value of its timestamp. */
  datatype CacheSlot = Empty | Corrupt | Entry(data: seq<FeedFire>, timestamp: int)

  /** The browser's localStorage slot, read and overwritten by a fetch. */
  class FireCache {
    var slot: CacheSlot

    constructor (s: CacheSlot)
      ensures slot == s
    {
      slot := s;
    }
  }

  datatype Metadata = Metadata(timestamp: string, source: string, status: string,
                               isLive: bool, isCached: bool, isSimulated: bool)

  datatype Attribution = Attribution(stubblePercentage: int, severity: string, totalFireCount: nat)

  /** The settled promise: a feed, or a rejection (a corrupt cache entry
      makes JSON.parse throw inside the catch block as well). */
  datatype FeedResult =
    | Rejected
    | Feed(metadata: Metadata, allFires: seq<ProcessedFire>, impactfulFires: seq<ProcessedFire>,
           clusters: seq<ClusteringJs.Zone>, attribution: Attribution)

  const CacheTtl: int := 5 * 60 * 1000
  const MsPerMinute: real := 60000.0
  const MaxProcessed: nat := 100
  const MaxImpactful: nat := 50
  const Delhi: Coord := Coord(28.6139, 77.2090)
  const FeedSource: string := "NASA-MODIS (Integrated Feed)"
  const BackupStatus: string := "Satellite Backup (Pre-downloaded)"
  const StaleStatus: string := "Stale (Re-fetching...)"

  // ----- generateSimulatedFires -----

  /** 40 + Math.floor(Math.random() * 20), from draw 0. */
  function SimCount(rnd: nat -> real): (n: nat)
    requires UnitDraws(rnd)
    ensures 40 <= n <= 59
  {
    UniformBounds(20.0, rnd(0));
    40 + (rnd(0) * 20.0).Floor
  }

  /** Hotspot i takes draws 1+4i .. 4+4i: latitude, longitude, frp, then the
      confidence choice. */
  function SimDraw(rnd: nat -> real, i: nat, k: nat): real
    requires k < 4
  {
    rnd(1 + 4 * i + k)
  }

  function SimulatedFire(rnd: nat -> real, i: nat): FeedFire
    requires UnitDraws(rnd)
  {
    var lat := Uniform(29.5, 31.5, SimDraw(rnd, i, 0));
    var lon := Uniform(74.0, 76.5, SimDraw(rnd, i, 1));
    var frp := Uniform(10.0, 150.0, SimDraw(rnd, i, 2));
    FeedFire("sim-" + NatToString(i), Coord(lat, lon), frp / 150.0, Some(JsRound(frp) as real),
             if SimDraw(rnd, i, 3) > 0.5 then "High" else "Nominal")
  }

  /** The batch the live tier produces for these draws. */
  function SimulatedBatch(rnd: nat -> real): (fs: seq<FeedFire>)
    requires UnitDraws(rnd)
    ensures |fs| == SimCount(rnd)
  {
    seq(SimCount(rnd), i requires 0 <= i => SimulatedFire(rnd, i))
  }

  /** The generator loop, one push per pass. */
  method GenerateSimulatedFires(rnd: nat -> real) returns (fires: seq<FeedFire>)
    requires UnitDraws(rnd)
    ensures 40 <= |fires| <= 59
    ensures fires == SimulatedBatch(rnd)
  {
    fires := [];
    var count := 40 + (rnd(0) * 20.0).Floor;
    for i := 0 to count
      invariant |fires| == i
      invariant forall k :: 0 <= k < i ==> fires[k] == SimulatedFire(rnd, k)
    {
      var lat := 29.5 + rnd(1 + 4 * i) * 2.0;
      var lon := 74.0 + rnd(2 + 4 * i) * 2.5;
      var frp := 10.0 + rnd(3 + 4 * i) * 140.0;
      var confidence := if rnd(4 + 4 * i) > 0.5 then "High" else "Nominal";
      var fire := FeedFire("sim-" + NatToString(i), Coord(lat, lon), frp / 150.0, Some(JsRound(frp) as real), confidence);
      assert fire == SimulatedFire(rnd, i);
      fires := fires + [fire];
    }
    assert |fires| == |SimulatedBatch(rnd)|;
  }

  /** Every simulated hotspot lies in the belt lat [29.5, 31.5), lon
      [74.0, 76.5), carries a whole frp in [10, 150] and an intensity in
      [1/15, 1), and is labelled 'High' exactly when its draw exceeds 0.5. */
  lemma SimulatedFireRanges(rnd: nat -> real, i: nat)
    requires UnitDraws(rnd)
    ensures var f := SimulatedFire(rnd, i);
      29.5 <= f.position.lat < 31.5 && 74.0 <= f.position.lon < 76.5 &&
      f.frp.Some? && 10.0 <= f.frp.value <= 150.0 && f.frp.value == f.frp.value.Floor as real &&
      1.0 / 15.0 <= f.intensity < 1.0 &&
      f.id == "sim-" + NatToString(i) &&
      (f.confidence == "High" <==> SimDraw(rnd, i, 3) > 0.5) &&
      (f.confidence == "High" || f.confidence == "Nominal")
  {
    var frp := Uniform(10.0, 150.0, SimDraw(rnd, i, 2));
    JsRoundMonotone(10.0, frp);
    JsRoundMonotone(frp, 150.0);
    JsRoundOfInt(10);
    JsRoundOfInt(150);
  }

  /** Simulated ids are distinct. */
  lemma SimulatedIdsDistinct(rnd: nat -> real, i: nat, j: nat)
    requires UnitDraws(rnd) && i != j
    ensures SimulatedFire(rnd, i).id != SimulatedFire(rnd, j).id
  {
    var a := "sim-" + NatToString(i);
    var b := "sim-" + NatToString(j);
    if a == b {
      assert a[4..] == NatToString(i) && b[4..] == NatToString(j);
      NatToStringInjective(i, j);
    }
  }

  // ----- the tier decision -----

  /** Math.round(age / 60000) for a cache written at timestamp, read at now. */
  function AgeMinutes(now: int, timestamp: int): int {
    JsRound((now - timestamp) as real / MsPerMinute)
  }

  function FreshStatus(minutes: int): string {
    "Cached (Fresh: " + IntToString(minutes) + "m ago)"
  }

  function RecoveryStatus(time: string): string {
    "Cached (Recovery: " + time + ")"
  }

  lemma FreshStatusInjective(a: int, b: int)
    requires FreshStatus(a) == FreshStatus(b)
    ensures a == b
  {
    var s := FreshStatus(a);
    var t := FreshStatus(b);
    assert s[15..|s| - 6] == IntToString(a);
    assert t[15..|t| - 6] == IntToString(b);
    IntToStringInjective(a, b);
  }

  /** A status starting with 'S' is never a fresh-cache status. */
  lemma NotFresh(status: string, m: int)
    requires |status| > 0 && status[0] == 'S'
    ensures status != FreshStatus(m)
  {
    assert FreshStatus(m)[0] == 'C';
  }

  /** Where a fetch takes its hotspots from. */
  datatype Tier =
    | FreshCache(data: seq<FeedFire>, minutes: int)
    | LiveFetch
    | Recovery(data: seq<FeedFire>, timestamp: int)
    | Backup
    | Reject

  /** The tier fetchFireDataFeed settles on, as written: t1 is the
      Date.now() of the age test, t2 the one of the status comparison. */
  function ChooseTier(slot: CacheSlot, forceFail: bool, t1: int, t2: int): Tier {
    match slot
    case Corrupt => Reject
    case Empty => if forceFail then Backup else LiveFetch
    case Entry(data, ts) =>
      if t1 - ts < CacheTtl && !forceFail then
        if FreshStatus(AgeMinutes(t1, ts)) == FreshStatus(AgeMinutes(t2, ts))
        then FreshCache(data, AgeMinutes(t1, ts))
        else LiveFetch
      else if forceFail then Recovery(data, ts)
      else LiveFetch
  }

  /** The cache is used only when it is younger than five minutes and
      forceFail is off; a forced failure never reaches the live fetch; a
      corrupt entry always rejects; a forced failure recovers from a
      readable cache and otherwise uses the backup. */
  lemma TierRules(slot: CacheSlot, forceFail: bool, t1: int, t2: int)
    ensures var tier := ChooseTier(slot, forceFail, t1, t2);
      (tier.FreshCache? ==> slot.Entry? && t1 - slot.timestamp < CacheTtl && !forceFail &&
                            tier.data == slot.data && tier.minutes == AgeMinutes(t1, slot.timestamp)) &&
      (forceFail ==> !tier.LiveFetch? && !tier.FreshCache?) &&
      (tier.Reject? <==> slot.Corrupt?) &&
      (forceFail && slot.Entry? ==> tier == Recovery(slot.data, slot.timestamp)) &&
      (forceFail && slot.Empty? ==> tier.Backup?) &&
      (!forceFail && !slot.Corrupt? ==> tier.LiveFetch? || tier.FreshCache?)
  {
  }

  /** A fresh entry is kept exactly when both clock readings round to the
      same number of minutes. */
  lemma FreshKeptIffSameMinute(data: seq<FeedFire>, ts: int, t1: int, t2: int)
    requires t1 - ts < CacheTtl
    ensures ChooseTier(Entry(data, ts), false, t1, t2).FreshCache? <==> AgeMinutes(t1, ts) == AgeMinutes(t2, ts)
  {
    if FreshStatus(AgeMinutes(t1, ts)) == FreshStatus(AgeMinutes(t2, ts)) {
      FreshStatusInjective(AgeMinutes(t1, ts), AgeMinutes(t2, ts));
    }
  }

  /** As written, a fresh entry is thrown away when the clock crosses a
      half-minute between the two readings: an entry 89,999 ms old at the
      first reading and 90,000 ms old at the second goes to the live tier. */
  lemma FreshEntryDiscarded()
    ensures 89999 - 0 < CacheTtl
    ensures ChooseTier(Entry([], 0), false, 89999, 90000) == LiveFetch
  {
    assert AgeMinutes(89999, 0) == 1;
    assert AgeMinutes(90000, 0) == 2;
    FreshKeptIffSameMinute([], 0, 89999, 90000);
  }

  /** The tier decision as evidently intended: one clock reading, and the
      cache kept whenever the age test passes. */
  function ChooseTierIntended(slot: CacheSlot, forceFail: bool, now: int): (tier: Tier)
    ensures tier.Reject? <==> slot.Corrupt?
    ensures forceFail ==> !tier.LiveFetch? && !tier.FreshCache?
    ensures tier.FreshCache? ==> slot.Entry? && tier.minutes == AgeMinutes(now, slot.timestamp) && tier.minutes <= 5
  {
    match slot
    case Corrupt => Reject
    case Empty => if forceFail then Backup else LiveFetch
    case Entry(data, ts) =>
      if now - ts < CacheTtl && !forceFail then FreshCache(data, AgeMinutes(now, ts))
      else if forceFail then Recovery(data, ts)
      else LiveFetch
  }

  /** The intended decision keeps every fresh entry, and agrees with the
      code as written whenever both readings are the same instant. */
  lemma IntendedKeepsFreshEntries(slot: CacheSlot, forceFail: bool, now: int)
    ensures (ChooseTierIntended(slot, forceFail, now).FreshCache? <==>
             slot.Entry? && now - slot.timestamp < CacheTtl && !forceFail)
    ensures ChooseTierIntended(slot, forceFail, now) == ChooseTier(slot, forceFail, now, now)
  {
  }

  // ----- impact processing -----

  /** `fire.frp || 0`, the sort key. */
  function FrpOrZero(f: FeedFire): real {
    match f.frp
    case Some(v) => v
    case None => 0.0
  }

  /** `fire.frp || 50`: a missing or zero frp counts as 50. */
  function FrpOrFifty(f: FeedFire): real {
    match f.frp
    case Some(v) => if v != 0.0 then v else 50.0
    case None => 50.0
  }

  /** Strictly north and strictly west of Delhi. */
  predicate NorthWest(p: Coord) {
    p.lat > Delhi.lat && p.lon < Delhi.lon
  }

  function Impact(f: FeedFire, dist: (Coord, Coord) -> real): real
    requires IsDistance(dist)
  {
    if NorthWest(f.position) then FrpOrFifty(f) / (dist(f.position, Delhi) / 10.0 + 1.0) else 0.0
  }

  function TotalImpact(fs: seq<FeedFire>, dist: (Coord, Coord) -> real): real
    requires IsDistance(dist)
  {
    if fs == [] then 0.0 else TotalImpact(fs[..|fs| - 1], dist) + Impact(fs[|fs| - 1], dist)
  }

  /** Math.round(impact * 10) / 10. */
  function ScoreOf(impact: real): real {
    JsRound(impact * 10.0) as real / 10.0
  }

  function Processed(f: FeedFire, dist: (Coord, Coord) -> real): ProcessedFire
    requires IsDistance(dist)
  {
    ProcessedFire(f, ScoreOf(Impact(f, dist)))
  }

  function ProcessedAll(fs: seq<FeedFire>, dist: (Coord, Coord) -> real): (ps: seq<ProcessedFire>)
    requires IsDistance(dist)
    ensures |ps| == |fs|
    ensures forall i :: 0 <= i < |fs| ==> ps[i] == Processed(fs[i], dist)
  {
    seq(|fs|, i requires 0 <= i < |fs| => Processed(fs[i], dist))
  }

  /** The hundred hotspots with the largest frp (missing counts 0). */
  function TopByFrp(base: seq<FeedFire>): seq<FeedFire> {
    Take(SortDesc(base, FrpOrZero), MaxProcessed)
  }

  /** The map pass: a score for every hotspot, and the running total of the
      unrounded north-west impacts. */
  method ProcessFires(top: seq<FeedFire>, dist: (Coord, Coord) -> real)
    returns (processed: seq<ProcessedFire>, totalImpact: real)
    requires IsDistance(dist)
    ensures processed == ProcessedAll(top, dist)
    ensures totalImpact == TotalImpact(top, dist)
  {
    processed := [];
    totalImpact := 0.0;
    for i := 0 to |top|
      invariant |processed| == i
      invariant forall k :: 0 <= k < i ==> processed[k] == Processed(top[k], dist)
      invariant totalImpact == TotalImpact(top[..i], dist)
    {
      var fire := top[i];
      var d := dist(fire.position, Delhi);
      var impact := 0.0;
      if fire.position.lat > Delhi.lat && fire.position.lon < Delhi.lon {
        impact := FrpOrFifty(fire) / (d / 10.0 + 1.0);
        totalImpact := totalImpact + impact;
      }
      processed := processed + [ProcessedFire(fire, JsRound(impact * 10.0) as real / 10.0)];
      assert top[..i + 1][..i] == top[..i];
    }
    assert top[..|top|] == top;
  }

  /** The processed list is at most 100 hotspots taken from the input, best
      frp first, and no hotspot left out has a larger frp than one kept. */
  lemma TopByFrpRanks(base: seq<FeedFire>)
    ensures var top := TopByFrp(base);
      |top| == (if |base| < MaxProcessed then |base| else MaxProcessed) &&
      SortedDesc(top, FrpOrZero) &&
      (forall x, y :: x in top && y in multiset(base) - multiset(top) ==> FrpOrZero(x) >= FrpOrZero(y)) &&
      (forall x :: x in top ==> x in base)
  {
    TopDominatesDropped(base, FrpOrZero, MaxProcessed);
    forall x | x in TopByFrp(base)
      ensures x in base
    {
      KeptFromInput(base, FrpOrZero, MaxProcessed, x);
    }
  }

  /** A hotspot outside the north-west sector scores 0 and adds nothing. */
  lemma OutsideSectorScoresZero(fs: seq<FeedFire>, f: FeedFire, dist: (Coord, Coord) -> real)
    requires IsDistance(dist) && !NorthWest(f.position)
    ensures Processed(f, dist).impactScore == 0.0
    ensures TotalImpact(fs + [f], dist) == TotalImpact(fs, dist)
  {
    JsRoundOfInt(0);
    assert (fs + [f])[..|fs|] == fs;
  }

  /** The displayed score is the impact to within half a decimal place. */
  lemma ScoreWithinRounding(impact: real)
    ensures impact - 0.05 < ScoreOf(impact) <= impact + 0.05
  {
  }

  lemma ImpactNonNegative(f: FeedFire, dist: (Coord, Coord) -> real)
    requires IsDistance(dist) && FrpOrFifty(f) >= 0.0
    ensures Impact(f, dist) >= 0.0
  {
    var d := dist(f.position, Delhi);
    assert d / 10.0 + 1.0 > 0.0;
  }

  lemma {:induction false} TotalImpactNonNegative(fs: seq<FeedFire>, dist: (Coord, Coord) -> real)
    requires IsDistance(dist)
    requires forall i :: 0 <= i < |fs| ==> FrpOrFifty(fs[i]) >= 0.0
    ensures TotalImpact(fs, dist) >= 0.0
  {
    if fs != [] {
      TotalImpactNonNegative(fs[..|fs| - 1], dist);
      ImpactNonNegative(fs[|fs| - 1], dist);
    }
  }

  /** With no hotspot in the north-west sector the total impact is 0. */
  lemma {:induction false} NoNorthWestNoImpact(fs: seq<FeedFire>, dist: (Coord, Coord) -> real)
    requires IsDistance(dist)
    requires forall i :: 0 <= i < |fs| ==> !NorthWest(fs[i].position)
    ensures TotalImpact(fs, dist) == 0.0
  {
    if fs != [] {
      NoNorthWestNoImpact(fs[..|fs| - 1], dist);
    }
  }

  // ----- attribution and metadata -----

  function StubblePct(totalImpact: real): real {
    Min(45.0, totalImpact / 50.0 + 5.0)
  }

  /** The attribution record; severity is read off the unrounded share. */
  function AttributionOf(totalImpact: real, count: nat): Attribution {
    var pct := StubblePct(totalImpact);
    Attribution(JsRound(pct),
                if pct > 35.0 then "Critical" else if pct > 20.0 then "High" else "Moderate",
                count)
  }

  /** With non-negative frp the displayed share is a whole number in [5, 45];
      with no north-west hotspot it is exactly 5. */
  lemma StubbleShareBounds(fs: seq<FeedFire>, dist: (Coord, Coord) -> real)
    requires IsDistance(dist)
    requires forall i :: 0 <= i < |fs| ==> FrpOrFifty(fs[i]) >= 0.0
    ensures 5 <= AttributionOf(TotalImpact(fs, dist), |fs|).stubblePercentage <= 45
    ensures (forall i :: 0 <= i < |fs| ==> !NorthWest(fs[i].position)) ==>
      AttributionOf(TotalImpact(fs, dist), |fs|).stubblePercentage == 5
  {
    TotalImpactNonNegative(fs, dist);
    var pct := StubblePct(TotalImpact(fs, dist));
    JsRoundMonotone(5.0, pct);
    JsRoundMonotone(pct, 45.0);
    JsRoundOfInt(5);
    JsRoundOfInt(45);
    if forall i :: 0 <= i < |fs| ==> !NorthWest(fs[i].position) {
      NoNorthWestNoImpact(fs, dist);
    }
  }

  /** The attribution severity grows with the total impact. */
  lemma AttributionSeverityMonotone(t1: real, t2: real, count: nat)
    requires t1 <= t2
    ensures var s1 := AttributionOf(t1, count).severity;
      var s2 := AttributionOf(t2, count).severity;
      (s1 == "Critical" ==> s2 == "Critical") && (s1 == "High" ==> s2 != "Moderate")
  {
  }

  function MetadataOf(status: string, now: string): Metadata {
    Metadata(now, FeedSource, status, status == "Live", Contains(status, "Cached"), Contains(status, "Simulated"))
  }

  /** The status string a tier ends with. */
  function StatusOf(tier: Tier, localeTime: int -> string): string {
    match tier
    case FreshCache(_, m) => FreshStatus(m)
    case LiveFetch => "Live"
    case Recovery(_, ts) => RecoveryStatus(localeTime(ts))
    case Backup => BackupStatus
    case Reject => ""
  }

  /** The hotspots a tier works on. */
  function BaseOf(tier: Tier, rnd: nat -> real, backup: seq<FeedFire>): seq<FeedFire>
    requires UnitDraws(rnd)
  {
    match tier
    case FreshCache(data, _) => data
    case LiveFetch => SimulatedBatch(rnd)
    case Recovery(data, _) => data
    case Backup => backup
    case Reject => []
  }

  lemma NoCapitalS(s: string)
    requires forall i :: 0 <= i < |s| ==> s[i] != 'S'
    ensures !Contains(s, "Simulated")
  {
    NotContainsByFirstChar(s, "Simulated");
  }

  /** The three flags follow the tier: isLive only for the live fetch,
      isCached only for the two cache tiers, and isSimulated never (the
      initial "Simulated" status never survives), so at most one holds.
      The recovery time text is assumed free of a capital S, as locale
      time strings are. */
  lemma StatusFlags(tier: Tier, localeTime: int -> string, now: string)
    requires !tier.Reject?
    requires tier.Recovery? ==> 'S' !in localeTime(tier.timestamp)
    ensures var md := MetadataOf(StatusOf(tier, localeTime), now);
      (md.isLive <==> tier.LiveFetch?) &&
      (md.isCached <==> tier.FreshCache? || tier.Recovery?) &&
      !md.isSimulated
  {
    match tier
    case FreshCache(_, m) => FreshStatusFlags(m);
    case LiveFetch => LiveStatusFlags();
    case Recovery(_, ts) => RecoveryStatusFlags(localeTime(ts));
    case Backup => BackupStatusFlags();
  }

  lemma FreshStatusFlags(m: int)
    ensures var status := FreshStatus(m);
      status != "Live" && Contains(status, "Cached") && !Contains(status, "Simulated")
  {
    var status := FreshStatus(m);
    assert MatchAt(status, "Cached", 0);
    NoCapitalS(status);
  }

  lemma LiveStatusFlags()
    ensures !Contains("Live", "Cached") && !Contains("Live", "Simulated")
  {
    NotContainsByFirstChar("Live", "Cached");
    NoCapitalS("Live");
  }

  lemma RecoveryStatusFlags(time: string)
    requires 'S' !in time
    ensures var status := RecoveryStatus(time);
      status != "Live" && Contains(status, "Cached") && !Contains(status, "Simulated")
  {
    var status := RecoveryStatus(time);
    assert MatchAt(status, "Cached", 0);
    NoCapitalS(status);
  }

  lemma BackupStatusFlags()
    ensures BackupStatus != "Live" && !Contains(BackupStatus, "Cached") && !Contains(BackupStatus, "Simulated")
  {
    var status := BackupStatus;
    NotContainsByFirstChar(status, "Cached");
    forall i | 0 <= i <= |status| - 9
      ensures !MatchAt(status, "Simulated", i)
    {
      if i == 0 {
        assert status[i..i + 9][1] == status[1] != "Simulated"[1];
      } else {
        assert status[i..i + 9][0] == status[i] != 'S';
      }
    }
  }

  function ImpactKey(p: ProcessedFire): real { p.impactScore }

  function ClusterInput(ps: seq<ProcessedFire>): (fs: seq<ClusteringJs.Fire>)
    ensures |fs| == |ps|
    ensures forall i :: 0 <= i < |ps| ==>
      fs[i] == ClusteringJs.Fire(ps[i].fire.position, ps[i].fire.frp, ps[i].fire.confidence)
  {
    seq(|ps|, i requires 0 <= i < |ps| => ClusteringJs.Fire(ps[i].fire.position, ps[i].fire.frp, ps[i].fire.confidence))
  }

  /** zones are the dashboard clusterer's top zones for these hotspots. */
  ghost predicate ZonesOf(zones: seq<ClusteringJs.Zone>, ps: seq<ProcessedFire>, dist: (Coord, Coord) -> real) {
    var input := ClusterInput(ps);
    exists groups ::
      Partitions(groups, |input|) && SeedOrdered(groups) &&
      (forall c :: 0 <= c < |groups| ==>
        Closed(ClusteringJs.Positions(input), dist, ClusteringJs.DefaultRadiusKm, groups[c]) &&
        Linked(ClusteringJs.Positions(input), dist, ClusteringJs.DefaultRadiusKm, groups[c])) &&
      ClusteringJs.WellFormed(input, groups) &&
      zones == Take(SortDesc(ClusteringJs.Summaries(input, groups, ClusteringJs.DefaultRadiusKm),
                             ClusteringJs.TotalFrpKey), ClusteringJs.MaxZones)
  }

  /** r is the feed built from base under the given status. */
  ghost predicate Assembled(r: FeedResult, base: seq<FeedFire>, status: string, now: string,
                            dist: (Coord, Coord) -> real)
    requires IsDistance(dist)
  {
    var top := TopByFrp(base);
    r.Feed? &&
    r.metadata == MetadataOf(status, now) &&
    r.allFires == ProcessedAll(top, dist) &&
    r.impactfulFires == Take(SortDesc(r.allFires, ImpactKey), MaxImpactful) &&
    r.attribution == AttributionOf(TotalImpact(top, dist), |top|) &&
    ZonesOf(r.clusters, r.allFires, dist)
  }

  /** The try block: the age test on the first clock reading t1, the status
      comparison on the second reading t2, and the live fetch, whose cache
      entry is stamped t3. thrown reports a throw (a corrupt entry, a forced
      failure); otherwise the status and the base list are those of the
      tier ChooseTier settles on. */
  method TryTiers(cache: FireCache, forceFail: bool, rnd: nat -> real, t1: int, t2: int, t3: int)
    returns (thrown: bool, status: string, baseFires: seq<FeedFire>)
    requires UnitDraws(rnd)
    modifies cache
    ensures var tier := ChooseTier(old(cache.slot), forceFail, t1, t2);
      (thrown <==> tier.Reject? || tier.Recovery? || tier.Backup?) &&
      (!thrown ==> baseFires == BaseOf(tier, rnd, []) && status == StatusOf(tier, _ => "")) &&
      (tier.LiveFetch? ==> cache.slot == Entry(SimulatedBatch(rnd), t3)) &&
      (!tier.LiveFetch? ==> cache.slot == old(cache.slot))
  {
    status := "Simulated";
    baseFires := [];
    thrown := false;
    var cached := cache.slot;
    if cached.Corrupt? {
      thrown := true;
      return;
    }
    if cached.Entry? {
      var age := t1 - cached.timestamp;
      if age < CacheTtl && !forceFail {
        baseFires := cached.data;
        status := FreshStatus(JsRound(age as real / MsPerMinute));
      } else {
        status := StaleStatus;
      }
    }
    var since := if cached.Entry? then cached.timestamp else 0;
    if !cached.Entry? {
      NotFresh(status, AgeMinutes(t2, since));
    } else if !(t1 - cached.timestamp < CacheTtl && !forceFail) {
      NotFresh(status, AgeMinutes(t2, since));
    } else {
      assert status == FreshStatus(AgeMinutes(t1, since));
    }
    var second := FreshStatus(JsRound((t2 - since) as real / MsPerMinute));
    assert second == FreshStatus(AgeMinutes(t2, since));
    if status != second {
      if forceFail {
        thrown := true;
      } else {
        baseFires := GenerateSimulatedFires(rnd);
        status := "Live";
        cache.slot := Entry(baseFires, t3);
      }
    }
  }

  /** Everything after the tiers: rank, score, cluster, attribute. */
  method Assemble(baseFires: seq<FeedFire>, status: string, now: string, dist: (Coord, Coord) -> real)
    returns (r: FeedResult)
    requires IsDistance(dist)
    ensures Assembled(r, baseFires, status, now, dist)
  {
    var top := Take(SortDesc(baseFires, FrpOrZero), MaxProcessed);
    var processed, totalImpact := ProcessFires(top, dist);
    var impactful := Take(SortDesc(processed, ImpactKey), MaxImpactful);
    var clusters;
    ghost var groups;
    clusters, groups := ClusteringJs.IdentifyFireClusters(Some(ClusterInput(processed)), ClusteringJs.DefaultRadiusKm, dist);
    ZonesOfGroups(clusters, processed, dist, groups);
    r := Feed(MetadataOf(status, now), processed, impactful, clusters,
              AttributionOf(totalImpact, |processed|));
  }

  /** The clusterer's grouping witnesses ZonesOf. */
  lemma ZonesOfGroups(zones: seq<ClusteringJs.Zone>, ps: seq<ProcessedFire>, dist: (Coord, Coord) -> real,
                      groups: seq<seq<nat>>)
    requires var input := ClusterInput(ps);
      Partitions(groups, |input|) && SeedOrdered(groups) &&
      (forall c :: 0 <= c < |groups| ==>
        Closed(ClusteringJs.Positions(input), dist, ClusteringJs.DefaultRadiusKm, groups[c]) &&
        Linked(ClusteringJs.Positions(input), dist, ClusteringJs.DefaultRadiusKm, groups[c])) &&
      ClusteringJs.WellFormed(input, groups) &&
      zones == Take(SortDesc(ClusteringJs.Summaries(input, groups, ClusteringJs.DefaultRadiusKm),
                             ClusteringJs.TotalFrpKey), ClusteringJs.MaxZones)
    ensures ZonesOf(zones, ps, dist)
  {
  }

  /** fetchFireDataFeed as written: t1 and t2 are the two Date.now()
      readings of the try block (see ChooseTier), t3 the instant written
      with a new cache entry, now the ISO text of the final timestamp. A
      throw in the try block moves to the catch block, which reads the
      cache again. */
  method FetchFireDataFeed(cache: FireCache, forceFail: bool, rnd: nat -> real,
                           t1: int, t2: int, t3: int, now: string,
                           backup: seq<FeedFire>, localeTime: int -> string,
                           dist: (Coord, Coord) -> real)
    returns (r: FeedResult)
    requires UnitDraws(rnd) && IsDistance(dist)
    modifies cache
    ensures var tier := ChooseTier(old(cache.slot), forceFail, t1, t2);
      (tier.Reject? ==> r.Rejected?) &&
      (!tier.Reject? ==> Assembled(r, BaseOf(tier, rnd, backup), StatusOf(tier, localeTime), now, dist)) &&
      (tier.LiveFetch? ==> cache.slot == Entry(SimulatedBatch(rnd), t3)) &&
      (!tier.LiveFetch? ==> cache.slot == old(cache.slot))
  {
    ghost var tier := ChooseTier(cache.slot, forceFail, t1, t2);
    var thrown, status, baseFires := TryTiers(cache, forceFail, rnd, t1, t2, t3);
    if thrown {
      var recovered := cache.slot;
      if recovered.Corrupt? {
        return Rejected;
      } else if recovered.Entry? {
        baseFires := recovered.data;
        status := RecoveryStatus(localeTime(recovered.timestamp));
      } else {
        baseFires := backup;
        status := BackupStatus;
      }
    }
    assert baseFires == BaseOf(tier, rnd, backup) && status == StatusOf(tier, localeTime);
    r := Assemble(baseFires, status, now, dist);
  }

  /** impactfulFires is the top 50 of the processed list by score, best
      first, and the hotspot count is the processed list's length. */
  lemma ImpactfulAreTop(r: FeedResult, base: seq<FeedFire>, status: string, now: string,
                        dist: (Coord, Coord) -> real)
    requires IsDistance(dist) && Assembled(r, base, status, now, dist)
    ensures SortedDesc(r.impactfulFires, ImpactKey) && |r.impactfulFires| <= MaxImpactful
    ensures forall x, y :: x in r.impactfulFires && y in multiset(r.allFires) - multiset(r.impactfulFires) ==>
      ImpactKey(x) >= ImpactKey(y)
    ensures r.attribution.totalFireCount == |r.allFires| <= MaxProcessed
  {
    TopDominatesDropped(r.allFires, ImpactKey, MaxImpactful);
  }
}
