# DELHI air-quality platform: a Dafny model of its fire and source core

DELHI is an air-quality dashboard for the Delhi region. Its core turns satellite fire hotspots in the
Punjab/Haryana "burning belt" into a stubble-burning share of Delhi's pollution. The core has two
pipelines:

- a Python batch job (`ml/nasa_live.py`, `ml/fire_engine.py`, `ml/fire_clustering.py`). It fetches
  the NASA FIRMS CSV feed, falls back to a persisted document and then to a simulator, clusters the
  hotspots and scores their impact on Delhi.
- a browser feed (`src/utils/satelliteData.js`, `src/utils/fireClusters.js`). It uses a five-minute
  localStorage cache, a simulated "live" fetch and a pre-downloaded backup.

Around the core sit the dashboard's helpers:

- the AQI generator and band table;
- the pollution-source split and its explanation texts;
- health advisories, safe-route ranking, the policy simulator and the chatbot's medical guard;
- the forecast mock and the two traffic simulators.

Each source file is one Dafny module. The model keeps each file's own form:

- Loops become methods with invariants, proved against specification functions. These include the
  two clusterers' work-list loops, the CSV row loop and the impact loops, the simulators' counted
  loops, the policy accumulators, and the successive share adjustments.
- The persisted feed file and the browser cache are classes whose field the fetch methods overwrite.
- Pure helpers are functions, with lemmas for what they promise.

Some inputs become parameters:

- Randomness is a function `rnd: nat -> real` whose k-th value is the k-th draw in [0, 1).
- Clock readings, the HTTP answer, the persisted file, `float()`/`int()` parsing and
  `toLocaleTimeString` are parameters too.
- The great-circle distance is a function parameter required to be a distance: non-negative,
  symmetric and zero on the diagonal.

Floating-point numbers are exact reals:

- `Math.round(x)` is `floor(x + 0.5)`.
- Python's `round(x, n)` rounds half to even at 10^n.
- Python's `int()` truncates toward zero.

Shared modules:

- `Common`: rounding, sums and means, decimal text, substrings.
- `Ranking`: a stable insertion sort with sortedness, permutation, stability and top-n lemmas.
- `Proximity`: the partition, closure and linkage predicates both clusterers are proved against.
  `Proximity.GroupingDetermined` shows that any two closed, linked partitions group the same pairs.
  The clusters are therefore the connected components of the "within radius" relation, whatever the
  visiting order.

## Model

| member | source | states |
|---|---|---|
| Common.JsRound | src/utils/fireClusters.js:73-74 | `Math.round` lands within half a unit of its argument, ties rounding up |
| Common.PyRound | ml/fire_clustering.py:77-80 | Python's `round(x, n)` lands within half a unit of the n-th decimal place of its argument |
| Common.JsRoundMonotone | src/utils/forecastModel.js:27-29 | `Math.round` never reverses the order of two values |
| Common.PyRoundMonotone | ml/fire_clustering.py:77-80 | Python's `round(x, n)` never reverses the order of two values |
| Common.PyRoundWithin | ml/fire_clustering.py:77 | rounding to n places keeps a value inside bounds that are themselves n-place decimals |
| Common.Uniform | ml/traffic_engine.py:43 | `random.uniform(lo, hi)` on a draw in [0, 1) lies in [lo, hi], below hi when lo < hi |
| Common.PyInt | ml/traffic_engine.py:48-51 | `int()` truncates toward zero: within one of its argument, on the side of zero |
| Common.Min | ml/nasa_live.py:120 | `min(a, b)` is one of its arguments and at most both |
| Common.Max | src/utils/policySimulator.js:82 | `Math.max(a, b)` is one of its arguments and at least both |
| Common.IntMin | src/utils/dataGenerator.js:92 | the integer `Math.min` is one of its arguments and at most both |
| Common.NatToString | src/utils/fireClusters.js:70 | a template-literal number is a non-empty run of digits without a leading zero |
| Common.NatToStringInjective | src/utils/satelliteData.js:37 | different counters give different decimal texts, so `sim-i` and `zone-i` ids are distinct |
| Common.IntToStringInjective | src/utils/satelliteData.js:68 | different integers, negatives included, give different texts |
| Common.ContainsExtended | src/utils/chatGuards.js:27 | a substring stays a substring after text is added on either side |
| Common.MeanOfBounds | ml/fire_clustering.py:63-67 | the mean of values that all lie in [lo, hi] lies in [lo, hi] |
| Ranking.SortDesc | ml/fire_clustering.py:86 | sorting by a key, largest first, is a permutation of its input |
| Ranking.SortDescSorted | ml/fire_clustering.py:86 | the descending sort's result has non-increasing keys |
| Ranking.SortDescStable | src/utils/satelliteData.js:107 | the sort is stable: the entries sharing any key keep their input order, as Python's `list.sort` and `Array.prototype.sort` do |
| Ranking.SortAsc | src/utils/routeOptimizer.js:47 | the ascending sort is a permutation of its input |
| Ranking.SortAscSorted | src/utils/routeOptimizer.js:47 | the ascending sort's result has non-decreasing keys |
| Ranking.Take | ml/fire_clustering.py:87 | `s[:n]` / `slice(0, n)` is the prefix of length min(n, len) |
| Ranking.TopDominatesDropped | ml/fire_clustering.py:86-87 | the top n of a descending sort are sorted, and every kept key is at least every dropped key |
| Ranking.KeptFromInput | ml/nasa_live.py:125 | every kept entry is an entry of the input |
| Proximity.PartitionSizes | ml/fire_clustering.py:33-57 | the cluster sizes of a partition of n hotspots add up to n |
| Proximity.NeighboursShareCluster | ml/fire_clustering.py:45-56 | in a partition whose clusters are closed under "within radius", two hotspots within the radius share a cluster |
| Proximity.StartGrowing | ml/fire_clustering.py:40-42 | a fresh cluster holding only the first unvisited index starts the growth invariant |
| Proximity.ClaimStep | ml/fire_clustering.py:53-55 | claiming an unvisited neighbour of a member keeps the cluster linked and duplicate-free, and keeps earlier members |
| Proximity.GrownClusterClosed | ml/fire_clustering.py:45-56 | once every member has been scanned, no hotspot within the radius of a member lies outside the cluster |
| Proximity.FinishCluster | ml/fire_clustering.py:57 | appending a fully grown cluster keeps every cluster non-empty, closed, linked and ordered by seed |
| Proximity.LinkedWithinClosed | src/utils/fireClusters.js:35-49 | a linked cluster meeting a closed cluster lies wholly inside it |
| Proximity.GroupingDetermined | src/utils/fireClusters.js:25-51 | two closed, linked partitions put exactly the same pairs together, so the grouping does not depend on visiting order |
| ClusteringPy.GroupFires | ml/fire_clustering.py:33-57 | the visited-list loop partitions the indices into clusters that are closed under "within radius", linked from their seed, and ordered by seed |
| ClusteringPy.GrowGroup | ml/fire_clustering.py:41-56 | from an unvisited seed the `while j` loop grows one cluster: seed first, no index twice, every member linked to an earlier one, every member's neighbours claimed, and the visited flags set exactly on the claimed indices |
| ClusteringPy.ClaimNeighbours | ml/fire_clustering.py:47-56 | the inner `for k` scan appends the unvisited neighbours of member j, marks them visited, and leaves member j scanned |
| ClusteringPy.Summaries | ml/fire_clustering.py:60-83 | one zone per cluster, in cluster order, whose id is the cluster's number |
| ClusteringPy.ClusterFires | ml/fire_clustering.py:25-87 | the result is the five zones with the largest rounded total FRP, taken from a stable descending sort of the per-cluster summaries of such a partition |
| ClusteringPy.RunClustering | ml/fire_clustering.py:89-102 | a given hotspot list is clustered with the default 20 km radius |
| ClusteringPy.NoFiresNoZones | ml/fire_clustering.py:30-31 | no hotspots give no zones |
| ClusteringPy.TopZones | ml/fire_clustering.py:85-87 | at most five zones, sorted by total FRP, each at least every zone left out |
| ClusteringPy.ZonesAreGroupSummaries | ml/fire_clustering.py:75-83 | every returned zone is the summary of the cluster its id names |
| ClusteringPy.SeverityMonotone | ml/fire_clustering.py:70-73 | a larger total FRP never gets a milder severity |
| ClusteringPy.SeverityMatchesDisplayedTotal | ml/fire_clustering.py:70-79 | the severity, chosen on the unrounded total, agrees with the displayed one-place total at the bands 500, 200 and 50 |
| ClusteringPy.CenterInBox | ml/fire_clustering.py:66-77 | the rounded centroid stays inside any 4-place box holding all of the cluster's hotspots |
| ClusteringPy.AverageConfidenceInRange | ml/fire_clustering.py:63-80 | with confidences in [0, 100] (50 when missing), the rounded average is in [0, 100] |
| ClusteringPy.FireCountsOfPartition | ml/fire_clustering.py:78 | the fire counts of all zones, before truncation, add up to the number of hotspots |
| ClusteringJs.GroupFires | src/utils/fireClusters.js:25-51 | the visited-set and FIFO-queue loop partitions the indices into clusters that are closed, linked and ordered by seed |
| ClusteringJs.GrowCluster | src/utils/fireClusters.js:31-49 | from an unvisited seed the queue loop grows one cluster: seed first, no index twice, every member linked to an earlier one, every member's neighbours claimed, and the visited set holding exactly the claimed indices |
| ClusteringJs.EnqueueNeighbours | src/utils/fireClusters.js:40-48 | the inner `forEach` enqueues and marks visited every unvisited neighbour of the dequeued hotspot, leaving it scanned |
| ClusteringJs.Summaries | src/utils/fireClusters.js:54-79 | one zone per cluster, in cluster order, with id `zone-<index>` |
| ClusteringJs.IdentifyFireClusters | src/utils/fireClusters.js:22-83 | null or empty input gives `[]`; otherwise the result is the top five zones by rounded total FRP of such a partition |
| ClusteringJs.TopZones | src/utils/fireClusters.js:82 | at most five zones, sorted by rounded total FRP, each at least every zone left out |
| ClusteringJs.ZonesAreGroupSummaries | src/utils/fireClusters.js:70-72 | every returned zone is the summary of cluster c and carries the id `zone-c` |
| ClusteringJs.ColorMatchesSeverity | src/utils/fireClusters.js:62-67 | the colour is always the one of the zone's severity |
| ClusteringJs.SeverityMatchesDisplayedTotal | src/utils/fireClusters.js:62-73 | the severity agrees with the rounded total at the bands 1000, 400 and 100 |
| ClusteringJs.SeverityMonotone | src/utils/fireClusters.js:65-67 | a larger total FRP never gets a milder severity |
| ClusteringJs.AverageConfidenceInRange | src/utils/fireClusters.js:56-74 | only 'High' counts 90 and any other label 70, so the rounded average is in [70, 90] |
| ClusteringJs.CenterInBox | src/utils/fireClusters.js:59-60 | the centre lies inside any box holding all of the cluster's hotspots |
| ClusteringJs.FireCountsAddUp | src/utils/fireClusters.js:72 | the fire counts of all zones, before truncation, add up to the cluster sizes |
| FireEngine.FireCount | ml/fire_engine.py:18 | `random.randint(40, 60)` gives 40 to 60 hotspots |
| FireEngine.SimulatedDetectionInBelt | ml/fire_engine.py:9-40 | each detection has rounded lat in [29.5, 31.5], lon in [74.0, 76.5], frp in [10.5, 150], brightness in [300, 380], and label 'nominal' or 'high' |
| FireEngine.DetectActiveFires | ml/fire_engine.py:12-42 | the counted loop appends exactly FireCount detections, the i-th built from its own draws, all inside the belt |
| FireEngine.GetSmokeForecast | ml/fire_engine.py:44-68 | `total_fires` is the list length whatever the sector; the risk is Severe exactly above 50; the estimate is the two-place rounding of the summed north-western impacts |
| FireEngine.SmokeImpact | ml/fire_engine.py:54-62 | a hotspot outside the north-west sector weighs 0; one inside it with positive frp weighs more than 0 |
| FireEngine.SmokeImpactNonNegative | ml/fire_engine.py:59-61 | a non-negative frp gives a non-negative impact; the north-west test makes the degree distance positive |
| FireEngine.EstimateNonNegative | ml/fire_engine.py:62-67 | with non-negative frp the rounded estimate is non-negative |
| FireEngine.OutsideSectorIgnored | ml/fire_engine.py:60 | adding hotspots outside the north-west sector leaves the total impact unchanged |
| NasaLive.SplitThenJoin | ml/nasa_live.py:39-42 | `split(',')` loses nothing: joining the fields with commas gives the line back |
| NasaLive.JoinThenSplit | ml/nasa_live.py:42 | comma-free fields joined with commas split back into the same fields |
| NasaLive.ClassifyRow | ml/nasa_live.py:43-52 | a row is skipped as short exactly when narrower than the header; it raises exactly when wide enough but lacking column 12 or holding an unparsable latitude, longitude, confidence, brightness or frp; a parsed row is kept exactly when it lies in the region box with confidence above 70, and then carries the latitude, longitude, brightness, frp and confidence parsed from columns 0, 1, 2, 12 and 8 |
| NasaLive.MalformedRowAbandonsBatch | ml/nasa_live.py:45-63 | a wide-enough row whose numeric fields do not parse, or which lacks column 12, abandons the whole live batch |
| NasaLive.SkippedRow | ml/nasa_live.py:43-52 | a short row, or one outside the region or at confidence 70 or less, adds nothing |
| NasaLive.KeptRow | ml/nasa_live.py:52-59 | a qualifying row appends its hotspot, numbered by the count kept so far |
| NasaLive.QualifyingRowKept | ml/nasa_live.py:41-59 | in a batch that parses, every qualifying row's hotspot appears, numbered by its place among the kept rows |
| NasaLive.ParsedLinesKeepQualifying | ml/nasa_live.py:38-59 | the live batch holds the hotspot of every qualifying data line after the header |
| NasaLive.KeptHotspotsQualify | ml/nasa_live.py:52-59 | kept hotspots are numbered 0, 1, 2 … in kept order, lie in the 28.0–32.5 / 73.0–78.0 box, and have confidence above 70 |
| NasaLive.ParsedLines | ml/nasa_live.py:38-59 | no lines raises; a parsed batch has fewer hotspots than lines, numbered 0, 1, 2 … and each in the region box with confidence above 70 |
| NasaLive.LiveFires | ml/nasa_live.py:32-59 | a failed request yields no live batch; a live batch comes from a body and has fewer hotspots than its lines, each in the region box with confidence above 70 |
| NasaLive.ParseFeed | ml/nasa_live.py:38-59 | the row loop yields exactly the hotspots the row rules keep, or failure for an empty body or a raising row |
| NasaLive.SimulatedFires | ml/nasa_live.py:80-93 | a failing simulator gives no hotspots, otherwise one per detection |
| NasaLive.SimulatedFiresFromBelt | ml/nasa_live.py:84-90 | simulated hotspots are numbered in order, lie in the region box, and have confidence 90 or 70 and frp in [10.5, 150] |
| NasaLive.ScoreImpacts | ml/nasa_live.py:104-114 | the loop writes each hotspot's two-place impact score and sums the unrounded impacts |
| NasaLive.ScoringKeepsRecords | ml/nasa_live.py:112 | scoring changes no field of a hotspot except its new impact score |
| NasaLive.TotalImpactNonNegative | ml/nasa_live.py:111-113 | with non-negative frp the total impact is non-negative |
| NasaLive.StubbleShareBounds | ml/nasa_live.py:120-128 | with non-negative frp the stubble share lies in [5, 45] before and after rounding, and is exactly 5 with no hotspots |
| NasaLive.AttributionSeverityMonotone | ml/nasa_live.py:129 | a larger total impact never gets a milder severity |
| NasaLive.CacheTierAsWritten | ml/nasa_live.py:66-73 | the cache tier returns the persisted document with its stored metadata |
| NasaLive.CacheTierKeepsPersistedStatus | ml/nasa_live.py:71-73 | a cached document persisted by a live run is served with status "Live" |
| NasaLive.CacheTierStamped | ml/nasa_live.py:66-73 | the cached document served with status "Cached", its own timestamp and source, and nothing else changed |
| NasaLive.FetchLiveNasaData | ml/nasa_live.py:19-135 | a parsed feed is assembled as "Live", its zones summarising the clusters in discovery order, and written to the file; otherwise the persisted document is served exactly as stored (so a document persisted as "Live" still says "Live"), with the file untouched; otherwise the simulator's batch is assembled as "Simulated" and written |
| NasaLive.FireCountMatches | ml/nasa_live.py:124-130 | `total_fire_count` equals the length of `all_fires`, and at most 50 impactful hotspots are listed |
| NasaLive.ImpactfulAreTop | ml/nasa_live.py:116-125 | `impactful_fires` is sorted by impact score, and each listed hotspot scores at least every one left out |
| SatelliteData.SimCount | src/utils/satelliteData.js:29 | a simulated batch has 40 to 59 hotspots |
| SatelliteData.GenerateSimulatedFires | src/utils/satelliteData.js:27-45 | the counted loop pushes exactly the batch the draws determine |
| SatelliteData.SimulatedFireRanges | src/utils/satelliteData.js:32-41 | lat in [29.5, 31.5), lon in [74.0, 76.5), integral frp in [10, 150], id `sim-i`, and confidence High exactly when the draw exceeds 0.5 |
| SatelliteData.SimulatedIdsDistinct | src/utils/satelliteData.js:37 | two hotspots of a batch never share an id |
| SatelliteData.ChooseTier | src/utils/satelliteData.js:59-101 | the tier reached with two separate clock readings, the first for the age test at line 64 and the second for the status test at line 74 |
| SatelliteData.TierRules | src/utils/satelliteData.js:59-101 | the cache is used only when under five minutes old and not forced to fail; a forced failure never fetches; a corrupt entry rejects; otherwise recovery from the cache or the backup |
| SatelliteData.FreshKeptIffSameMinute | src/utils/satelliteData.js:64-74 | as written, a fresh entry is used exactly when both clock readings round to the same minute |
| SatelliteData.FreshEntryDiscarded | src/utils/satelliteData.js:64-74 | as written, an entry 89,999 ms old at the first reading and 90,000 ms at the second is discarded for a live fetch |
| SatelliteData.ChooseTierIntended | src/utils/satelliteData.js:59-101 | with one clock reading: a corrupt entry, and only it, rejects; a forced failure never uses the fresh cache or the live fetch; a fresh cache quotes its age, at most 5 minutes |
| SatelliteData.IntendedKeepsFreshEntries | src/utils/satelliteData.js:59-76 | with one clock reading, the fresh cache is used exactly when under five minutes old and not forced to fail |
| SatelliteData.TryTiers | src/utils/satelliteData.js:57-101 | with the age test on the first clock reading and the status comparison on the second (ChooseTier), the try block throws exactly for the corrupt, recovery and backup tiers; the live tier overwrites the cache with its batch and a new timestamp; other tiers leave the cache alone |
| SatelliteData.ProcessFires | src/utils/satelliteData.js:105-117 | the `map` gives each hotspot its 1-place impact score and sums only the unrounded north-western impacts |
| SatelliteData.TopByFrpRanks | src/utils/satelliteData.js:106-108 | the processed list is the top 100 by `frp \|\| 0`, sorted, taken from the input |
| SatelliteData.OutsideSectorScoresZero | src/utils/satelliteData.js:111-115 | a hotspot not strictly north and west of Delhi scores 0 and adds nothing to the total |
| SatelliteData.ScoreWithinRounding | src/utils/satelliteData.js:116 | the displayed score is within 0.05 of the impact |
| SatelliteData.TotalImpactNonNegative | src/utils/satelliteData.js:113-114 | with non-negative `frp \|\| 50` the total impact is non-negative |
| SatelliteData.NoNorthWestNoImpact | src/utils/satelliteData.js:112 | with no north-western hotspot the total impact is 0 |
| SatelliteData.StubbleShareBounds | src/utils/satelliteData.js:121-136 | the rounded stubble share lies in [5, 45], and is 5 with no north-western hotspot |
| SatelliteData.AttributionSeverityMonotone | src/utils/satelliteData.js:137 | a larger total impact never gets a milder severity |
| SatelliteData.StatusFlags | src/utils/satelliteData.js:128-130 | `isLive` exactly for the live tier, `isCached` exactly for the two cache tiers, and `isSimulated` never |
| SatelliteData.FetchFireDataFeed | src/utils/satelliteData.js:53-141 | with the tier ChooseTier settles on for the two clock readings, a corrupt cache rejects; otherwise the feed is assembled from the tier's hotspots and status; the cache is rewritten only by the live tier |
| SatelliteData.ImpactfulAreTop | src/utils/satelliteData.js:119-138 | `impactfulFires` is sorted by score and capped at 50, each listed hotspot scores at least every one left out, and the count is the processed length, at most 100 |
| SourceInsights.AreaMetadata | src/utils/sourceInsights.js:4-85 | `getAreaMetadata` (line 232) finds an entry exactly for the ten listed area ids, each with three landmarks |
| SourceInsights.MetaFor | src/utils/sourceInsights.js:91 | an unknown area id uses the 'anand-vihar' metadata |
| SourceInsights.DominantIndex | src/utils/sourceInsights.js:146-148 | the `reduce` picks a maximum value, and on ties the last one, because `prev` wins only when strictly greater |
| SourceInsights.Dominant | src/utils/sourceInsights.js:146-148 | an empty list has no dominant source; otherwise the dominant is an entry at least as large as all others |
| SourceInsights.PrimaryByCategory | src/utils/sourceInsights.js:101-128 | the primary block's factors depend only on whether the dominant is Industrial, Vehicular or other |
| SourceInsights.SecondaryFactors | src/utils/sourceInsights.js:150-158 | every source name gets two secondary factors |
| SourceInsights.SecondaryIsRunnerUp | src/utils/sourceInsights.js:131 | the secondary exists exactly when some source has another name, and it is a largest such source |
| SourceInsights.SourceExplanation | src/utils/sourceInsights.js:90-144 | the explanation fails exactly when there are no sources or all share the dominant name; otherwise the primary block has three factors, the secondary two, and the secondary title quotes a source named differently from the dominant |
| SourceInsights.Briefs | src/utils/sourceInsights.js:141 | each tertiary entry carries its source's name, value and brief description |
| SourceInsights.RankedBriefs | src/utils/sourceInsights.js:138-141 | the tertiary list is in non-increasing value order and holds exactly the filtered sources |
| SourceInsights.TertiaryIsTheRest | src/utils/sourceInsights.js:138-141 | the tertiary list holds exactly the sources named neither dominant nor secondary, largest first |
| SourceInsights.UnknownAreaFallsBack | src/utils/sourceInsights.js:91 | an unknown area gets the same explanation as 'anand-vihar' |
| SourceInsights.AuthorityActions | src/utils/sourceInsights.js:184-221 | three authority actions for Industrial, Vehicular or Construction, two otherwise |
| SourceInsights.CitizenActions | src/utils/sourceInsights.js:184-226 | three citizen actions whatever the dominant source |
| SourceInsights.RecommendationsFor | src/utils/sourceInsights.js:174-230 | the recommendations fail exactly for no sources, or a Vehicular or Construction dominant with an area id the table lacks; the impact text is always the 25 %–35 % band of the AQI |
| SourceInsights.RecommendationCounts | src/utils/sourceInsights.js:174-230 | recommendations exist unless there is no source or a Vehicular/Construction dominant meets an unknown area; then 3 citizen actions and 3 or 2 authority actions by source |
| SourceInsights.ImpactBandOrdered | src/utils/sourceInsights.js:181 | the quoted impact range runs from the smaller to the larger figure |
| DataGenerator.AreaFor | src/utils/dataGenerator.js:68 | a known id finds its area; an unknown id uses the first area |
| DataGenerator.UnknownAreaIsFirst | src/utils/dataGenerator.js:68 | the fallback area is Anand Vihar with base AQI 240 |
| DataGenerator.AirQualityLevel | src/utils/dataGenerator.js:50-57 | the label is Good exactly up to 50 and Severe exactly above 400; Good and Satisfactory use the success colour |
| DataGenerator.LevelRank | src/utils/dataGenerator.js:50-57 | the label follows the bands ≤50, ≤100, ≤200, ≤300, ≤400, above |
| DataGenerator.AirQualityMonotone | src/utils/dataGenerator.js:50-57 | a higher AQI never gets a better label |
| DataGenerator.PollutantsOf | src/utils/dataGenerator.js:59-65 | for a non-negative AQI every pollutant is non-negative, and SO2 ≤ NO2 ≤ PM2.5 ≤ PM10 ≤ CO, following the ratios 0.007, 0.09, 0.65, 0.92, 2.4 |
| DataGenerator.PollutantRatios | src/utils/dataGenerator.js:59-65 | each pollutant is its fixed ratio of the AQI to within rounding, and none falls when the AQI rises |
| DataGenerator.SeasonalFactor | src/utils/dataGenerator.js:35-48 | the monthly factors lie in [0.5, 2.2] |
| DataGenerator.MultiplierBounds | src/utils/dataGenerator.js:73-84 | the combined multiplier lies in [0.3375, 2.97] |
| DataGenerator.BuildMultiplier | src/utils/dataGenerator.js:73-84 | the successive `*=` steps compute the time-of-day, weekend and seasonal product |
| DataGenerator.CurrentAqi | src/utils/dataGenerator.js:67-93 | the rounded, noised reading of the area, capped at 650 and never negative |
| DataGenerator.Adjusted | src/utils/dataGenerator.js:123-135 | after the time-of-day and season adjustments every raw share is positive and none has shrunk |
| DataGenerator.AdjustedShares | src/utils/dataGenerator.js:123-135 | the successive `+=` steps compute the adjusted shares |
| DataGenerator.CalculateSources | src/utils/dataGenerator.js:119-143 | five entries, a permutation of the normalised adjusted shares of the area, sorted largest first with ties in key order |
| DataGenerator.NormalisedNames | src/utils/dataGenerator.js:139-142 | the five names Vehicular, Industrial, Construction, Stubble and Other each appear once |
| DataGenerator.NormalisedSum | src/utils/dataGenerator.js:138-142 | every percentage lies in [0, 100], and rounding keeps their sum within 2 of 100 |
| DataGenerator.DenseNetwork | src/utils/dataGenerator.js:146-178 | the counted loop pushes 150 sensors, the i-th built from its own draws after the 25 area draws |
| DataGenerator.SensorRanges | src/utils/dataGenerator.js:151-161 | every sensor lies in the NCR box with AQI in [180, 430], labelled Moderate or worse |
| DataGenerator.SensorIdsDistinct | src/utils/dataGenerator.js:164 | sensor ids are distinct |
| HealthCalculator.AdvisoryIndex | src/utils/healthCalculator.js:42-49 | the advisory chosen is the first band whose upper bound the AQI does not exceed |
| HealthCalculator.HealthAdvisory | src/utils/healthCalculator.js:42-49 | the advisory is one of the six categories: GOOD exactly up to 50 and HAZARDOUS exactly above 400 |
| HealthCalculator.AdvisoryContains | src/utils/healthCalculator.js:6-49 | for integer AQI in [0, 5000] the returned category's [min, max] contains it |
| HealthCalculator.CategoriesTile | src/utils/healthCalculator.js:6-49 | a category whose range contains the AQI is the one returned |
| HealthCalculator.AdvisoryMonotone | src/utils/healthCalculator.js:42-49 | a higher AQI never gets a milder advisory |
| HealthCalculator.PersonalizedTips | src/utils/healthCalculator.js:51-54 | some advice text is always returned, falling back to the UNHEALTHY advice |
| HealthCalculator.UnknownGroupFallsBack | src/utils/healthCalculator.js:53 | an unknown group gets the UNHEALTHY advice |
| HealthCalculator.KnownGroupGetsOwnAdvice | src/utils/healthCalculator.js:52-53 | a known group gets its own advice at the level banded ≤100, ≤250, ≤400, above |
| HealthCalculator.TipLevelMonotone | src/utils/healthCalculator.js:52 | a higher AQI never gets a lower tip level |
| HealthCalculator.MaskIndex | src/utils/healthCalculator.js:56-61 | no mask exactly below 100, a cloth or surgical mask exactly from 100 to below 200, an N95 exactly from 200 to below 350, and the respirator mandate exactly from 350 |
| HealthCalculator.RecommendMaskType | src/utils/healthCalculator.js:56-61 | the answer is one of the four mask texts: no mask exactly below 100, the N99/N100 mandate exactly from 350 |
| HealthCalculator.MaskMonotone | src/utils/healthCalculator.js:56-61 | a higher AQI never gets a weaker mask |
| HealthCalculator.PredictHealthRisk | src/utils/healthCalculator.js:63-67 | the risk never exceeds 100, and is non-negative for non-negative inputs |
| HealthCalculator.RiskMonotoneInHours | src/utils/healthCalculator.js:63-67 | longer exposure never lowers the risk |
| HealthCalculator.DefaultVulnerability | src/utils/healthCalculator.js:63 | a missing vulnerability score counts as 1 |
| RouteOptimizer.ExposureScore | src/utils/routeOptimizer.js:41 | the exposure score is AQI × minutes / 10 to within half a unit, and non-negative when that product is |
| RouteOptimizer.RatingOf | src/utils/routeOptimizer.js:45 | Safe exactly below 600, High Risk exactly from 900 |
| RouteOptimizer.AlternativeRoutes | src/utils/routeOptimizer.js:8-48 | a permutation of the three rated routes, sorted by exposure score, lowest first |
| RouteOptimizer.RoutesAreTheFixedThree | src/utils/routeOptimizer.js:39-46 | every returned route is one of the fixed three, rated by its own score |
| RouteOptimizer.EndpointsIgnored | src/utils/routeOptimizer.js:8 | start and end do not affect the result |
| RouteOptimizer.FixedRanking | src/utils/routeOptimizer.js:9-47 | the order is DND Flyway (738, Moderate), Mathura Road (952, High Risk), Ring Road (980, High Risk) |
| RouteOptimizer.InsightPercent | src/utils/routeOptimizer.js:52 | the percentage is undefined exactly when the second score is 0 |
| RouteOptimizer.RouteInsight | src/utils/routeOptimizer.js:50-53 | the insight names the first route, then quotes the rounded percentage by which its exposure score undercuts the second route's; a zero second score shows NaN, -Infinity or Infinity as JavaScript's division would |
| RouteOptimizer.InsightPercentBounds | src/utils/routeOptimizer.js:52 | for sorted scores with a positive second score, the percentage lies in [0, 100] |
| RouteOptimizer.FixedInsight | src/utils/routeOptimizer.js:50-53 | on the fixed routes the insight quotes 22% |
| PolicySimulator.FindPolicy | src/utils/policySimulator.js:71 | `POLICIES.find` returns the policy with that id, or nothing when no policy has it |
| PolicySimulator.UnknownIdsIgnored | src/utils/policySimulator.js:70-72 | unknown ids change none of the totals |
| PolicySimulator.CostAndBenefitArePlainSums | src/utils/policySimulator.js:76-78 | cost and economic benefit are plain sums over the known ids, whatever the compliance |
| PolicySimulator.StepReduction | src/utils/policySimulator.js:74-75 | each step adds a reduction between 0 and the policy's nominal reduction |
| PolicySimulator.ReductionGrows | src/utils/policySimulator.js:70-80 | for compliance ≥ 0 the total reduction never falls through the loop |
| PolicySimulator.ReductionAtMostNominal | src/utils/policySimulator.js:73-75 | at compliance ≤ 100 the total reduction is at most the sum of the nominal reductions |
| PolicySimulator.Roi | src/utils/policySimulator.js:83 | ROI is 0 when the total cost is not positive |
| PolicySimulator.AccumulateTotals | src/utils/policySimulator.js:64-80 | the `forEach` computes the four accumulated totals |
| PolicySimulator.SimulatePolicy | src/utils/policySimulator.js:64-95 | the result record, with final AQI ≥ 25 and recommendation score ≤ 100 |
| PolicySimulator.NoPoliciesOnlyFloors | src/utils/policySimulator.js:65-80 | without a known policy every total stays 0 |
| PolicySimulator.ReductionReported | src/utils/policySimulator.js:82-88 | from an AQI of at least 25, the reported reduction lies between 0 and the rounded total reduction |
| PolicySimulator.BelowFloorReportsNegativeReduction | src/utils/policySimulator.js:82-88 | below the floor the reported reduction is negative: AQI 10 reports −15 |
| PolicySimulator.LivesSaved | src/utils/policySimulator.js:97-99 | `calculateLivesSaved` is 1.6 per AQI point to within rounding |
| PolicySimulator.LivesSavedMonotone | src/utils/policySimulator.js:97-99 | a larger reduction never saves fewer lives |
| ChatGuards.ToLower | src/utils/chatGuards.js:26 | lower-casing maps each character and keeps the length |
| ChatGuards.SomeIncluded | src/utils/chatGuards.js:27 | `some(includes)` holds exactly when one of the keywords is a substring |
| ChatGuards.IsForbiddenHealthQuery | src/utils/chatGuards.js:24-27 | an absent or empty question is allowed; otherwise it is refused exactly when its lower-cased text contains one of the 13 keywords |
| ChatGuards.CaseInsensitive | src/utils/chatGuards.js:26 | a question and its upper-cased form get the same answer |
| ChatGuards.ExtensionKeepsForbidden | src/utils/chatGuards.js:27 | text added before or after a refused question keeps it refused |
| ChatGuards.SubstringNotWord | src/utils/chatGuards.js:4-27 | matching is on substrings: "secure" trips "cure" |
| ChatGuards.QuietQuestionAllowed | src/utils/chatGuards.js:27 | a question without any keyword passes |
| ForecastModel.PredictAqi | src/utils/forecastModel.js:8-34 | one prediction per hour 1..hours (24 by default), the i-th built from the hour's AQI and draw |
| ForecastModel.BandContainsPrediction | src/utils/forecastModel.js:22-29 | every prediction lies in its confidence band, whose half-widths are 1.5 per hour ahead, give or take 1 |
| ForecastModel.TrendBounds | src/utils/forecastModel.js:18-19 | the trend moves the prediction by at least −0.8 and less than 1.2 per hour ahead |
| ForecastModel.DirectionOf | src/utils/forecastModel.js:39-50 | Upward exactly when the change exceeds +10%, Downward exactly below −10%, with JavaScript's infinities for a zero first value |
| ForecastModel.ForecastInsights | src/utils/forecastModel.js:36-73 | exactly two insights: the trend insight matching the direction, whose message quotes the absolute rounded percentage change for a rise or an improvement and is the fixed stable text otherwise, then the fixed atmospheric note |
| ForecastModel.FlatForecastIsStable | src/utils/forecastModel.js:39-63 | a forecast that ends where it starts is Stable |
| ForecastModel.DoublingIsUpward | src/utils/forecastModel.js:43-48 | doubling is an Upward warning quoting 100% |
| SourceAttribution.AdjustedRaw | src/utils/sourceAttribution.js:11-41 | the raw shares total 100, plus 10r in the stubble season, plus a sixth of the spike at rush hour |
| SourceAttribution.AdjustShares | src/utils/sourceAttribution.js:11-41 | the successive adjustments of the five local variables compute the adjusted raw shares |
| SourceAttribution.Entries | src/utils/sourceAttribution.js:43-52 | five entries, each percentage the rounded share of 100 |
| SourceAttribution.CalculateSourceAttribution | src/utils/sourceAttribution.js:6-54 | five entries, a permutation of the normalised entries, sorted largest first with ties in list order |
| SourceAttribution.StubbleRange | src/utils/sourceAttribution.js:14-19 | the stubble share is 5 off season and in [35, 45) in months 9 and 10 |
| SourceAttribution.RushHourSpike | src/utils/sourceAttribution.js:27-33 | at rush hour Vehicular gains the spike and the others lose a third or a quarter of it |
| SourceAttribution.PercentagesSum | src/utils/sourceAttribution.js:44-52 | rounding keeps the five percentages' sum within 2 of 100 |
| SourceAttribution.ConstructionCanGoNegative | src/utils/sourceAttribution.js:13-39 | an industrial area at weekday rush hour in the stubble season reports Construction at −1% |
| SourceAttribution.ConfidenceScore | src/utils/sourceAttribution.js:56-58 | the confidence score lies in [75, 95] |
| SourceAttribution.Driver | src/utils/sourceAttribution.js:66-72 | a driver sentence is added exactly for the Vehicular, Stubble and Industrial sources |
| SourceAttribution.SourceExplanation | src/utils/sourceAttribution.js:60-76 | the explanation is the opening, the driver and the secondary sentence, in that order |
| SourceAttribution.ExplanationNamesTopThenSecond | src/utils/sourceAttribution.js:64-74 | the text starts with the top source's name and ends with the second's mention and " observed." |
| SourceAttribution.ExplanationLeadsWithLargest | src/utils/sourceAttribution.js:61-62 | on the sorted attribution, the first entry is a largest and the second a largest of the rest |
| TrafficEngine.TrafficMultiplier | ml/traffic_engine.py:24-32 | weekends 0.7 exactly from 11 to 21, else 0.3; weekdays 1.0 exactly from 8 to 11, 0.95 from 17 to 20, else 0.5 |
| TrafficEngine.WeekdayRushBusier | ml/traffic_engine.py:26-31 | in the weekday rush windows the weekday multiplier exceeds the weekend one |
| TrafficEngine.StatusOf | ml/traffic_engine.py:63 | Severe exactly above a load of 1.2, Moderate exactly at or below 0.8 |
| TrafficEngine.GenerateSnapshot | ml/traffic_engine.py:34-66 | the loop appends one entry per location, in order, each with its own noise draw |
| TrafficEngine.VehicleCountTracksLoad | ml/traffic_engine.py:47-61 | truncation gives between 2780·load − 4 (exclusive) and 2780·load vehicles |
| TrafficEngine.Pm25TracksLoad | ml/traffic_engine.py:55-62 | the PM2.5 sum is within 2.03 below 244·load, and its rounding is non-negative |
| TrafficEngine.EntryReportsLoad | ml/traffic_engine.py:43-63 | the load lies in [0.85, 1.15] times base load times multiplier, and the entry reports its name, coordinates, truncated index and status |
| TrafficEngine.QuietWeekendModerate | ml/traffic_engine.py:27-63 | at weekends outside 11–21 every location reads Moderate |
| TrafficSimulator.Multiplier | src/utils/trafficSimulator.js:14-15 | 1.0 exactly at rush hour (8–11, 17–20), 0.6 otherwise |
| TrafficSimulator.Noise | src/utils/trafficSimulator.js:18 | the noise lies in [0.9, 1.1) |
| TrafficSimulator.StatusOf | src/utils/trafficSimulator.js:26 | Critical exactly above 1.2, Normal exactly at or below 0.8 |
| TrafficSimulator.GenerateTrafficData | src/utils/trafficSimulator.js:17-28 | four entries, one per location, in order |
| TrafficSimulator.EntryFigures | src/utils/trafficSimulator.js:18-26 | the figures are the rounded 100, 1500 and 85 multiples of the load, and the status is the load's band |
| TrafficSimulator.OffPeakNeverCritical | src/utils/trafficSimulator.js:15-26 | off peak no location is ever Critical |
| TrafficSimulator.AnandViharCriticalAtRush | src/utils/trafficSimulator.js:7-26 | at rush hour Anand Vihar is always Critical |
| TrafficSimulator.StatusMonotone | src/utils/trafficSimulator.js:26 | the status only worsens with load |

## Left out

- Haversine distance (ml/fire_clustering.py:6-23, ml/nasa_live.py:9-17, src/utils/fireClusters.js:6-17, src/utils/satelliteData.js:11-22): the trigonometry is not modelled. The distance is a parameter that must be non-negative, symmetric and zero from a point to itself.
- Floating point: values are exact reals, so IEEE rounding of intermediate results, NaN and infinities are not modelled. The exception is `generateForecastInsights`, where a zero first AQI follows JavaScript's infinities.
- Network, files, localStorage and the clock: the HTTP answer, the persisted feed file, the cache slot, `Date.now()` and the times of day are inputs. JSON encoding of the persisted documents is not modelled; the document is kept as a value. The 800 ms `setTimeout` is not modelled.
- Randomness: `Math.random()` and `random.random()` are a sequence of draws in [0, 1). `random.randint` and `random.choice` are modelled as the floor of one draw, not CPython's bit-level generator.
- ClusteringPy.RunClustering: the branch that reads `live_fires.json` when no list is given, and its printed error, are not modelled.
- NasaLive.FetchLiveNasaData: a clusterer that raises on import is not modelled; the clusters always come from `cluster_fires`. The `print` progress messages are left out.
- SatelliteData.FetchFireDataFeed: `Array.prototype.sort` sorts `baseFires` in place, which reorders the imported backup array between calls. The model sorts a copy. The feed's `timestamp` is the parameter `now`.
- SatelliteData.StatusFlags: it assumes the recovery time text contains no capital S. Otherwise `status.includes("Simulated")` could in principle match, since `toLocaleTimeString` output is a parameter.
- DataGenerator: `getAllAreasData` is modelled only as the 25 draws it consumes before the dense network. `getHistoricalMonthlyData` is not modelled; it is a constant table with noise and no property beyond its length.
- ForecastModel.PredictAqi: each hour's `getCurrentAQI` reading is a parameter. The locale time and ISO timestamp texts are not modelled.
- ForecastModel: `getAccuracyMetrics` returns a constant list and is not modelled.
- ChatGuards.ToLower: only the ASCII letters A–Z are folded; Unicode case mapping is not modelled.
- PolicySimulator: `Math.pow(0.8, x)` is a parameter. It is only required to be positive everywhere and at most 1 for non-negative x; its exact values and its monotonicity are not modelled. `roi.toFixed(1)` is kept as an integer number of tenths.
- PolicySimulator.SimulatePolicy: below the floor of 25 the reported reduction is negative, as the code computes it. BelowFloorReportsNegativeReduction records this.
- TrafficEngine: the NOx and CO emission factors are listed but, as in the source, never used.
- SourceAttribution.CalculateSourceAttribution: the area object is reduced to its id. Raw shares can go negative, as in the source; ConstructionCanGoNegative shows one case.
- ForecastModel.ForecastInsights: requires at least one prediction, because the source reads `predictions[0].aqi` without a check.
- RouteOptimizer.RouteInsight: requires at least two routes, because the source reads `routes[1]` without a check; InsightPercent does the same.
- SourceAttribution.SourceExplanation: requires at least two entries, because the source reads `attribution[1]` without a check.
- SourceInsights.SourceExplanation: the `weather` argument is unused by the source and left out.
- React components and other presentation code are not part of this model.

## Findings

| source | as written | input that shows it | evidently intended | confidence | as-written member | corrected member |
|---|---|---|---|---|---|---|
| ml/nasa_live.py:66-73 | the cache tier sets `status = "Cached"` on the local `metadata` and returns `cached_data`, so the edit is lost | a document persisted by a live run, served when the feed fails, still reports "Live" | the served document is marked "Cached", keeping its own timestamp | not executed | NasaLive.CacheTierKeepsPersistedStatus | NasaLive.CacheTierStamped |
| src/utils/satelliteData.js:64-74 | the freshness test and the status comparison read `Date.now()` separately | an entry 89,999 ms old at the first reading and 90,000 ms old at the second is discarded and refetched | one clock reading decides freshness: a cache under five minutes old is used | not executed | SatelliteData.FreshEntryDiscarded | SatelliteData.IntendedKeepsFreshEntries |

The fetch methods, NasaLive.FetchLiveNasaData and SatelliteData.FetchFireDataFeed, follow the code as written. The corrected definitions stand beside them with their properties proved.
