/** The batch ingestion job (ml/nasa_live.py, fetch_live_nasa_data): parse the
    NASA FIRMS CSV feed, keep the confident hotspots of the Punjab/Haryana
    box, fall back to the persisted document and then to the simulator, then
    cluster, score each hotspot's impact on Delhi, attribute a stubble share,
    and persist the result.

    The network answer, the persisted file's state, the simulator's output,
    the clock reading and the number parsers (float() and int()) are inputs. */
module NasaLive {
  import opened Common
  import opened Ranking
  import opened Proximity
  import ClusteringPy
  import FireEngine

  /** A hotspot record of the feed document. impactScore is absent until the
      impact pass writes it into the record. */
  datatype Hotspot = Hotspot(id: nat, position: Coord, intensity: real, frp: real,
                             confidence: int, impactScore: Option<real>)

  datatype Metadata = Metadata(timestamp: string, source: string, status: string)

  datatype Attribution = Attribution(stubblePercentage: real, severity: string, totalFireCount: nat)

  datatype FeedDocument = FeedDocument(metadata: Metadata, allFires: seq<Hotspot>,
                                       impactfulFires: seq<Hotspot>,
                                       clusters: seq<ClusteringPy.Zone>,
                                       attribution: Attribution)

  /** The HTTP answer: the lines of the decoded body, or a failure (connection
      error, timeout, error status, undecodable body). */
  datatype LiveResponse = LiveFailed | LiveBody(lines: seq<string>)

  /** The persisted feed file: missing; present but unusable by the cache tier
      (not JSON, or its metadata not a mapping); or a document written by an
      earlier run. */
  datatype CacheFile = NoFile | Unusable | Persisted(doc: FeedDocument)

  /** The feed file on disk, which a run reads and overwrites. */
  class FeedFile {
    var contents: CacheFile

    constructor (c: CacheFile)
      ensures contents == c
    {
      contents := c;
    }
  }

  const Source: string := "NASA-MODIS"
  const Comma: char := ','

  // ----- CSV rows -----

  /** str.split(sep): the fields between separators; there is always one. */
  function Split(s: string, sep: char): (fields: seq<string>)
    ensures |fields| >= 1
    ensures forall i :: 0 <= i < |fields| ==> sep !in fields[i]
  {
    if |s| == 0 then [""]
    else
      var rest := Split(s[1..], sep);
      if s[0] == sep then [""] + rest
      else [[s[0]] + rest[0]] + rest[1..]
  }

  /** sep.join(fields). */
  function Join(fields: seq<string>, sep: char): string
    requires |fields| >= 1
  {
    if |fields| == 1 then fields[0] else fields[0] + [sep] + Join(fields[1..], sep)
  }

  lemma {:induction false} SplitThenJoin(s: string, sep: char)
    ensures Join(Split(s, sep), sep) == s
  {
    if |s| > 0 {
      var rest := Split(s[1..], sep);
      SplitThenJoin(s[1..], sep);
      if s[0] == sep {
        assert Split(s, sep)[1..] == rest;
        assert s == [sep] + s[1..];
      } else if |rest| == 1 {
        assert s == [s[0]] + s[1..];
      } else {
        var fs := Split(s, sep);
        assert fs[1..] == rest[1..];
        assert Join(rest, sep) == rest[0] + [sep] + Join(rest[1..], sep);
        assert s == [s[0]] + s[1..];
      }
    }
  }

  /** Splitting a separator-free prefix onto a split string extends its first field. */
  lemma {:induction false} SplitFreePrefix(a: string, t: string, sep: char)
    requires sep !in a
    ensures Split(a + t, sep) == [a + Split(t, sep)[0]] + Split(t, sep)[1..]
  {
    if |a| > 0 {
      SplitFreePrefix(a[1..], t, sep);
      assert (a + t)[1..] == a[1..] + t;
      assert (a + t)[0] == a[0] && a[0] != sep;
      assert [a[0]] + (a[1..] + Split(t, sep)[0]) == a + Split(t, sep)[0];
    } else {
      var fs := Split(t, sep);
      assert a + t == t && a + fs[0] == fs[0];
      assert fs == [fs[0]] + fs[1..];
    }
  }

  lemma {:induction false} JoinThenSplit(fields: seq<string>, sep: char)
    requires |fields| >= 1
    requires forall i :: 0 <= i < |fields| ==> sep !in fields[i]
    ensures Split(Join(fields, sep), sep) == fields
  {
    if |fields| == 1 {
      SplitFreePrefix(fields[0], "", sep);
      assert fields[0] + "" == fields[0];
    } else {
      var rest := Join(fields[1..], sep);
      JoinThenSplit(fields[1..], sep);
      assert ([sep] + rest)[1..] == rest;
      assert Split([sep] + rest, sep) == [""] + fields[1..];
      assert Join(fields, sep) == fields[0] + ([sep] + rest);
      SplitFreePrefix(fields[0], [sep] + rest, sep);
      assert fields[0] + "" == fields[0];
    }
  }

  /** What one data row leads to. Malformed covers a non-numeric field and a
      row too short to hold column 12: both raise and abandon the batch. */
  datatype RowOutcome =
    | Short
    | Malformed
    | Outside
    | Kept(lat: real, lon: real, bright: real, frp: real, conf: int)

  predicate InRegion(lat: real, lon: real) {
    28.0 <= lat <= 32.5 && 73.0 <= lon <= 78.0
  }

  /** One row against a header of width fields; float() and int() are the
      parameters parseFloat and parseInt (None when Python raises). */
  function ClassifyRow(row: seq<string>, width: nat,
                       parseFloat: string -> Option<real>, parseInt: string -> Option<int>): (o: RowOutcome)
    ensures o.Short? <==> |row| < width
    ensures o.Malformed? <==>
      width <= |row| &&
      (|row| <= 12 || parseFloat(row[0]).None? || parseFloat(row[1]).None? || parseInt(row[8]).None? ||
       parseFloat(row[2]).None? || parseFloat(row[12]).None?)
    ensures o.Kept? ==> InRegion(o.lat, o.lon) && o.conf > 70
    ensures !o.Short? && !o.Malformed? ==>
      (o.Kept? <==> InRegion(parseFloat(row[0]).value, parseFloat(row[1]).value) && parseInt(row[8]).value > 70)
    ensures o.Kept? ==>
      o == Kept(parseFloat(row[0]).value, parseFloat(row[1]).value, parseFloat(row[2]).value,
                parseFloat(row[12]).value, parseInt(row[8]).value)
  {
    if |row| < width then Short
    else if |row| <= 12 then Malformed
    else
      match (parseFloat(row[0]), parseFloat(row[1]), parseInt(row[8]), parseFloat(row[2]), parseFloat(row[12]))
      case (Some(lat), Some(lon), Some(conf), Some(bright), Some(frp)) =>
        if InRegion(lat, lon) && conf > 70 then Kept(lat, lon, bright, frp, conf) else Outside
      case _ => Malformed
  }

  function KeptHotspot(o: RowOutcome, id: nat): Hotspot
    requires o.Kept?
  {
    Hotspot(id, Coord(o.lat, o.lon), o.bright / 400.0, o.frp, o.conf, None)
  }

  /** The hotspots of the data lines, numbered in kept order, or None when a
      row raises. */
  function KeepRows(rows: seq<string>, width: nat,
                    parseFloat: string -> Option<real>, parseInt: string -> Option<int>): (r: Option<seq<Hotspot>>)
    ensures r.Some? ==> |r.value| <= |rows|
  {
    if rows == [] then Some([])
    else
      match KeepRows(rows[..|rows| - 1], width, parseFloat, parseInt)
      case None => None
      case Some(fs) =>
        var o := ClassifyRow(Split(rows[|rows| - 1], Comma), width, parseFloat, parseInt);
        if o.Malformed? then None
        else if o.Kept? then Some(fs + [KeptHotspot(o, |fs|)])
        else Some(fs)
  }

  /** The live tier's hotspots: the header is the first line (no line at all
      raises), the data rows follow. */
  function ParsedLines(lines: seq<string>,
                       parseFloat: string -> Option<real>, parseInt: string -> Option<int>): (r: Option<seq<Hotspot>>)
    ensures lines == [] ==> r.None?
    ensures r.Some? ==> |r.value| < |lines|
    ensures r.Some? ==> forall k :: 0 <= k < |r.value| ==>
      r.value[k].id == k && InRegion(r.value[k].position.lat, r.value[k].position.lon) && r.value[k].confidence > 70
  {
    if |lines| == 0 then None
    else
      var width := |Split(lines[0], Comma)|;
      if KeepRows(lines[1..], width, parseFloat, parseInt).Some? then
        KeptHotspotsQualify(lines[1..], width, parseFloat, parseInt);
        KeepRows(lines[1..], width, parseFloat, parseInt)
      else None
  }

  /** The live tier's hotspots: none when the request failed, else those of
      the body's lines. */
  function LiveFires(live: LiveResponse,
                     parseFloat: string -> Option<real>, parseInt: string -> Option<int>): (r: Option<seq<Hotspot>>)
    ensures live.LiveFailed? ==> r.None?
    ensures r.Some? ==> live.LiveBody? && |r.value| < |live.lines|
    ensures r.Some? ==> forall k :: 0 <= k < |r.value| ==>
      InRegion(r.value[k].position.lat, r.value[k].position.lon) && r.value[k].confidence > 70
  {
    match live
    case LiveFailed => None
    case LiveBody(lines) => ParsedLines(lines, parseFloat, parseInt)
  }

  lemma {:induction false} NonePersists(rows: seq<string>, i: nat, width: nat,
                                        parseFloat: string -> Option<real>, parseInt: string -> Option<int>)
    requires i <= |rows| && KeepRows(rows[..i], width, parseFloat, parseInt).None?
    ensures KeepRows(rows, width, parseFloat, parseInt).None?
    decreases |rows| - i
  {
    if i < |rows| {
      assert rows[..i + 1][..i] == rows[..i];
      NonePersists(rows, i + 1, width, parseFloat, parseInt);
    } else {
      assert rows[..i] == rows;
    }
  }

  /** A single malformed row abandons the whole batch, wherever it sits. */
  lemma MalformedRowAbandonsBatch(rows: seq<string>, i: nat, width: nat,
                                  parseFloat: string -> Option<real>, parseInt: string -> Option<int>)
    requires i < |rows| && ClassifyRow(Split(rows[i], Comma), width, parseFloat, parseInt).Malformed?
    ensures KeepRows(rows, width, parseFloat, parseInt).None?
  {
    assert rows[..i + 1][..i] == rows[..i];
    NonePersists(rows, i + 1, width, parseFloat, parseInt);
  }

  /** A row shorter than the header, or outside the box or the confidence
      threshold, is skipped and changes nothing. */
  lemma SkippedRow(rows: seq<string>, row: string, width: nat,
                   parseFloat: string -> Option<real>, parseInt: string -> Option<int>)
    requires var o := ClassifyRow(Split(row, Comma), width, parseFloat, parseInt); o.Short? || o.Outside?
    ensures KeepRows(rows + [row], width, parseFloat, parseInt) == KeepRows(rows, width, parseFloat, parseInt)
  {
    assert (rows + [row])[..|rows|] == rows;
  }

  /** A row that parses and passes the box-and-confidence test adds its
      hotspot, numbered by the count kept so far. */
  lemma KeptRow(rows: seq<string>, row: string, width: nat,
                parseFloat: string -> Option<real>, parseInt: string -> Option<int>)
    requires KeepRows(rows, width, parseFloat, parseInt).Some?
    requires ClassifyRow(Split(row, Comma), width, parseFloat, parseInt).Kept?
    ensures var fs := KeepRows(rows, width, parseFloat, parseInt).value;
      KeepRows(rows + [row], width, parseFloat, parseInt) ==
        Some(fs + [KeptHotspot(ClassifyRow(Split(row, Comma), width, parseFloat, parseInt), |fs|)])
  {
    assert (rows + [row])[..|rows|] == rows;
  }

  /** Every qualifying row of a batch that parses is in it: row i's hotspot
      appears, numbered by its place among the kept rows. */
  lemma {:induction false} QualifyingRowKept(rows: seq<string>, i: nat, width: nat,
                                             parseFloat: string -> Option<real>, parseInt: string -> Option<int>)
    requires i < |rows| && KeepRows(rows, width, parseFloat, parseInt).Some?
    requires ClassifyRow(Split(rows[i], Comma), width, parseFloat, parseInt).Kept?
    ensures var fs := KeepRows(rows, width, parseFloat, parseInt).value;
      exists k :: 0 <= k < |fs| &&
        fs[k] == KeptHotspot(ClassifyRow(Split(rows[i], Comma), width, parseFloat, parseInt), k)
    decreases |rows|
  {
    var init := rows[..|rows| - 1];
    var o := ClassifyRow(Split(rows[i], Comma), width, parseFloat, parseInt);
    var fs := KeepRows(init, width, parseFloat, parseInt).value;
    var all := KeepRows(rows, width, parseFloat, parseInt).value;
    if i == |rows| - 1 {
      assert all == fs + [KeptHotspot(o, |fs|)];
      assert all[|fs|] == KeptHotspot(o, |fs|);
    } else {
      assert init[i] == rows[i];
      QualifyingRowKept(init, i, width, parseFloat, parseInt);
      var k :| 0 <= k < |fs| && fs[k] == KeptHotspot(o, k);
      assert all[..|fs|] == fs;
      assert all[k] == KeptHotspot(o, k);
    }
  }

  /** The live batch holds every qualifying data line of the body. */
  lemma ParsedLinesKeepQualifying(lines: seq<string>, i: nat,
                                  parseFloat: string -> Option<real>, parseInt: string -> Option<int>)
    requires 1 <= i < |lines| && ParsedLines(lines, parseFloat, parseInt).Some?
    requires ClassifyRow(Split(lines[i], Comma), |Split(lines[0], Comma)|, parseFloat, parseInt).Kept?
    ensures var fs := ParsedLines(lines, parseFloat, parseInt).value;
      exists k :: 0 <= k < |fs| &&
        fs[k] == KeptHotspot(ClassifyRow(Split(lines[i], Comma), |Split(lines[0], Comma)|, parseFloat, parseInt), k)
  {
    assert lines[1..][i - 1] == lines[i];
    QualifyingRowKept(lines[1..], i - 1, |Split(lines[0], Comma)|, parseFloat, parseInt);
  }

  /** Every kept hotspot lies in the box, has confidence above 70, and the
      ids count 0, 1, 2, ... in kept order. */
  lemma {:induction false} KeptHotspotsQualify(rows: seq<string>, width: nat,
                                              parseFloat: string -> Option<real>, parseInt: string -> Option<int>)
    requires KeepRows(rows, width, parseFloat, parseInt).Some?
    ensures var fs := KeepRows(rows, width, parseFloat, parseInt).value;
      forall k :: 0 <= k < |fs| ==>
        fs[k].id == k && InRegion(fs[k].position.lat, fs[k].position.lon) && fs[k].confidence > 70 &&
        fs[k].impactScore.None?
  {
    if rows != [] {
      KeptHotspotsQualify(rows[..|rows| - 1], width, parseFloat, parseInt);
    }
  }

  /** The CSV loop of the live tier: a row too short is skipped; a row that
      raises abandons the batch (None). */
  method ParseFeed(lines: seq<string>, parseFloat: string -> Option<real>, parseInt: string -> Option<int>)
    returns (r: Option<seq<Hotspot>>)
    ensures r == ParsedLines(lines, parseFloat, parseInt)
  {
    if |lines| == 0 {
      return None;
    }
    var header := Split(lines[0], Comma);
    var rows := lines[1..];
    var fireList: seq<Hotspot> := [];
    for i := 0 to |rows|
      invariant KeepRows(rows[..i], |header|, parseFloat, parseInt) == Some(fireList)
    {
      var row := Split(rows[i], Comma);
      assert rows[..i + 1][..i] == rows[..i];
      var o := ClassifyRow(row, |header|, parseFloat, parseInt);
      if o.Malformed? {
        NonePersists(rows, i + 1, |header|, parseFloat, parseInt);
        return None;
      }
      if o.Kept? {
        fireList := fireList + [KeptHotspot(o, |fireList|)];
      }
    }
    assert rows[..|rows|] == rows;
    r := Some(fireList);
  }

  // ----- the simulated tier -----

  /** A detection as a feed hotspot: intensity frp/150, confidence 90 for
      'high' and 70 otherwise. */
  function FromDetection(d: FireEngine.Detection, i: nat): Hotspot {
    Hotspot(i, Coord(d.latitude, d.longitude), d.frp / 150.0, d.frp,
            if d.confidence == "high" then 90 else 70, None)
  }

  /** The simulated tier's hotspots; a simulator that raised (None) gives none. */
  function SimulatedFires(detections: Option<seq<FireEngine.Detection>>): (fs: seq<Hotspot>)
    ensures detections.None? ==> fs == []
    ensures detections.Some? ==> |fs| == |detections.value|
  {
    match detections
    case None => []
    case Some(ds) => seq(|ds|, i requires 0 <= i < |ds| => FromDetection(ds[i], i))
  }

  lemma SimulatedFiresFromBelt(detections: Option<seq<FireEngine.Detection>>)
    requires detections.Some?
    requires forall i :: 0 <= i < |detections.value| ==> FireEngine.InBelt(detections.value[i])
    ensures var fs := SimulatedFires(detections);
      forall k :: 0 <= k < |fs| ==>
        fs[k].id == k && InRegion(fs[k].position.lat, fs[k].position.lon) &&
        (fs[k].confidence == 90 || fs[k].confidence == 70) && 10.5 <= fs[k].frp <= 150.0
  {
  }

  // ----- impact and attribution -----

  const Delhi: Coord := Coord(28.6139, 77.2090)

  /** frp weighted down by the distance to Delhi. */
  function Impact(h: Hotspot, dist: (Coord, Coord) -> real): real
    requires IsDistance(dist)
  {
    h.frp / (dist(h.position, Delhi) + 1.0)
  }

  function TotalImpact(fs: seq<Hotspot>, dist: (Coord, Coord) -> real): real
    requires IsDistance(dist)
  {
    if fs == [] then 0.0 else TotalImpact(fs[..|fs| - 1], dist) + Impact(fs[|fs| - 1], dist)
  }

  /** The record with its impact score written in. */
  function Scored(h: Hotspot, dist: (Coord, Coord) -> real): Hotspot
    requires IsDistance(dist)
  {
    h.(impactScore := Some(PyRound(Impact(h, dist), 2)))
  }

  function ScoredAll(fs: seq<Hotspot>, dist: (Coord, Coord) -> real): (r: seq<Hotspot>)
    requires IsDistance(dist)
    ensures |r| == |fs|
    ensures forall i :: 0 <= i < |fs| ==> r[i] == Scored(fs[i], dist)
  {
    seq(|fs|, i requires 0 <= i < |fs| => Scored(fs[i], dist))
  }

  /** The impact loop: writes impact_score into every record and sums the
      unrounded impacts. */
  method ScoreImpacts(fires: seq<Hotspot>, dist: (Coord, Coord) -> real)
    returns (scored: seq<Hotspot>, totalImpact: real)
    requires IsDistance(dist)
    ensures scored == ScoredAll(fires, dist)
    ensures totalImpact == TotalImpact(fires, dist)
  {
    scored := [];
    totalImpact := 0.0;
    for i := 0 to |fires|
      invariant |scored| == i
      invariant forall k :: 0 <= k < i ==> scored[k] == Scored(fires[k], dist)
      invariant totalImpact == TotalImpact(fires[..i], dist)
    {
      var fire := fires[i];
      var d := dist(fire.position, Delhi);
      var impact := fire.frp / (d + 1.0);
      scored := scored + [fire.(impactScore := Some(PyRound(impact, 2)))];
      totalImpact := totalImpact + impact;
      assert fires[..i + 1][..i] == fires[..i];
    }
    assert fires[..|fires|] == fires;
  }

  /** Scoring changes nothing but the score: ids, positions and order stay. */
  lemma ScoringKeepsRecords(fires: seq<Hotspot>, dist: (Coord, Coord) -> real)
    requires IsDistance(dist)
    ensures var r := ScoredAll(fires, dist);
      forall i :: 0 <= i < |fires| ==>
        r[i].(impactScore := None) == fires[i].(impactScore := None) && r[i].impactScore.Some?
  {
  }

  lemma ImpactNonNegative(h: Hotspot, dist: (Coord, Coord) -> real)
    requires IsDistance(dist) && h.frp >= 0.0
    ensures Impact(h, dist) >= 0.0
  {
    var d := dist(h.position, Delhi);
    assert d + 1.0 > 0.0;
  }

  lemma {:induction false} TotalImpactNonNegative(fs: seq<Hotspot>, dist: (Coord, Coord) -> real)
    requires IsDistance(dist)
    requires forall i :: 0 <= i < |fs| ==> fs[i].frp >= 0.0
    ensures TotalImpact(fs, dist) >= 0.0
  {
    if fs != [] {
      TotalImpactNonNegative(fs[..|fs| - 1], dist);
      ImpactNonNegative(fs[|fs| - 1], dist);
    }
  }

  /** The stubble share: min(45, total/50 + 5). */
  function StubblePct(totalImpact: real): real {
    Min(45.0, totalImpact / 50.0 + 5.0)
  }

  /** The attribution record; severity is read off the unrounded share. */
  function AttributionOf(totalImpact: real, count: nat): Attribution {
    var pct := StubblePct(totalImpact);
    Attribution(PyRound(pct, 1),
                if pct > 30.0 then "Critical" else if pct > 20.0 then "High" else "Moderate",
                count)
  }

  /** With non-negative frp the share lies in [5, 45], before and after
      rounding to one place; with no hotspots it is exactly 5. */
  lemma StubbleShareBounds(fs: seq<Hotspot>, dist: (Coord, Coord) -> real)
    requires IsDistance(dist)
    requires forall i :: 0 <= i < |fs| ==> fs[i].frp >= 0.0
    ensures var pct := StubblePct(TotalImpact(fs, dist));
      5.0 <= pct <= 45.0 && 5.0 <= AttributionOf(TotalImpact(fs, dist), |fs|).stubblePercentage <= 45.0
    ensures fs == [] ==> AttributionOf(TotalImpact(fs, dist), |fs|).stubblePercentage == 5.0
  {
    TotalImpactNonNegative(fs, dist);
    var pct := StubblePct(TotalImpact(fs, dist));
    PyRoundAtLeast(pct, 1, 5);
    PyRoundAtMost(pct, 1, 45);
    if fs == [] {
      assert pct == 5.0;
      PyRoundAtLeast(5.0, 1, 5);
      PyRoundAtMost(5.0, 1, 5);
    }
  }

  /** The attribution severity grows with the share. */
  lemma AttributionSeverityMonotone(t1: real, t2: real, count: nat)
    requires t1 <= t2
    ensures var s1 := AttributionOf(t1, count).severity;
      var s2 := AttributionOf(t2, count).severity;
      (s1 == "Critical" ==> s2 == "Critical") && (s1 == "High" ==> s2 != "Moderate")
  {
  }

  function ImpactKey(h: Hotspot): real {
    match h.impactScore
    case Some(v) => v
    case None => 0.0
  }

  const MaxImpactful: nat := 50

  /** The clusterer's view of the hotspots: frp and confidence always set. */
  function ClusterInput(fs: seq<Hotspot>): (r: seq<ClusteringPy.Fire>)
    ensures |r| == |fs|
    ensures forall i :: 0 <= i < |fs| ==> r[i] == ClusteringPy.Fire(fs[i].position, Some(fs[i].frp), Some(fs[i].confidence as real))
  {
    seq(|fs|, i requires 0 <= i < |fs| => ClusteringPy.Fire(fs[i].position, Some(fs[i].frp), Some(fs[i].confidence as real)))
  }

  /** zones are the batch clusterer's top zones for these hotspots. */
  ghost predicate ZonesOf(zones: seq<ClusteringPy.Zone>, fs: seq<Hotspot>, dist: (Coord, Coord) -> real) {
    var input := ClusterInput(fs);
    exists groups ::
      ClosedLinkedPartition(ClusteringPy.Positions(input), dist, ClusteringPy.DefaultRadiusKm, groups) &&
      SeedOrdered(groups) &&
      ClusteringPy.WellFormed(input, groups) &&
      zones == Take(SortDesc(ClusteringPy.Summaries(input, groups, ClusteringPy.DefaultRadiusKm),
                             ClusteringPy.TotalFrpKey), ClusteringPy.MaxZones)
  }

  /** doc is the document assembled from fires under the given status. */
  ghost predicate Assembled(doc: FeedDocument, fires: seq<Hotspot>, status: string, now: string,
                            dist: (Coord, Coord) -> real)
    requires IsDistance(dist)
  {
    doc.metadata == Metadata(now, Source, status) &&
    doc.allFires == ScoredAll(fires, dist) &&
    doc.impactfulFires == Take(SortDesc(ScoredAll(fires, dist), ImpactKey), MaxImpactful) &&
    doc.attribution == AttributionOf(TotalImpact(fires, dist), |fires|) &&
    ZonesOf(doc.clusters, fires, dist)
  }

  // ----- the cache tier -----

  /** The cache tier as written: the status and timestamp are edited on a
      local metadata record that is then dropped, and the persisted
      document comes back exactly as it was stored. */
  function CacheTierAsWritten(cached: FeedDocument): (doc: FeedDocument)
    ensures doc.metadata == cached.metadata
  {
    cached
  }

  /** A run whose live fetch failed, reading a document persisted by a live
      run, reports "Live". */
  lemma CacheTierKeepsPersistedStatus()
    ensures var cached := FeedDocument(Metadata("2025-11-02T06:00:00", Source, "Live"), [], [], [],
                                       Attribution(5.0, "Moderate", 0));
      CacheTierAsWritten(cached).metadata.status == "Live"
  {
  }

  /** The cache tier as evidently intended: the cached document, stamped
      "Cached", keeping its own timestamp. */
  function CacheTierStamped(cached: FeedDocument): (doc: FeedDocument)
    ensures doc.metadata.status == "Cached"
    ensures doc.metadata.timestamp == cached.metadata.timestamp
    ensures doc.metadata.source == cached.metadata.source
    ensures doc.(metadata := cached.metadata) == cached
  {
    cached.(metadata := cached.metadata.(status := "Cached"))
  }

  // ----- the whole run -----

  /** fetch_live_nasa_data. Live tier when the feed parses; otherwise the
      persisted document exactly as stored, its status not restamped (see
      CacheTierAsWritten) and the file not rewritten; otherwise the
      simulator's batch (none if it raised). The clusters, impact scores and
      attribution are computed on the chosen hotspots, and the document is
      written back to the file. */
  method FetchLiveNasaData(live: LiveResponse, file: FeedFile,
                           detections: Option<seq<FireEngine.Detection>>, now: string,
                           parseFloat: string -> Option<real>, parseInt: string -> Option<int>,
                           dist: (Coord, Coord) -> real)
    returns (doc: FeedDocument)
    requires IsDistance(dist)
    modifies file
    ensures LiveFires(live, parseFloat, parseInt).Some? ==>
      Assembled(doc, LiveFires(live, parseFloat, parseInt).value, "Live", now, dist) &&
      file.contents == Persisted(doc)
    ensures LiveFires(live, parseFloat, parseInt).None? && old(file.contents).Persisted? ==>
      doc == old(file.contents).doc && doc == CacheTierAsWritten(old(file.contents).doc) &&
      file.contents == old(file.contents)
    ensures LiveFires(live, parseFloat, parseInt).None? && !old(file.contents).Persisted? ==>
      Assembled(doc, SimulatedFires(detections), "Simulated", now, dist) &&
      file.contents == Persisted(doc)
  {
    var metadata := Metadata(now, Source, "Live");
    var fireList: seq<Hotspot> := [];
    var parsed: Option<seq<Hotspot>> := None;
    if live.LiveBody? {
      parsed := ParseFeed(live.lines, parseFloat, parseInt);
    }
    if parsed.Some? {
      fireList := parsed.value;
    } else {
      if file.contents.Persisted? {
        var cached := file.contents.doc;
        return CacheTierAsWritten(cached);
      }
      metadata := metadata.(status := "Simulated");
      fireList := SimulatedFires(detections);
    }
    var input := ClusterInput(fireList);
    var clusters;
    ghost var groups;
    clusters, groups := ClusteringPy.RunClustering(input, dist);
    var scored, totalImpact := ScoreImpacts(fireList, dist);
    var impactful := SortDesc(scored, ImpactKey);
    doc := FeedDocument(metadata, scored, Take(impactful, MaxImpactful), clusters,
                        AttributionOf(totalImpact, |fireList|));
    assert ZonesOf(clusters, fireList, dist);
    file.contents := Persisted(doc);
  }

  /** The hotspot count of the attribution is the length of all_fires. */
  lemma FireCountMatches(doc: FeedDocument, fires: seq<Hotspot>, status: string, now: string,
                         dist: (Coord, Coord) -> real)
    requires IsDistance(dist) && Assembled(doc, fires, status, now, dist)
    ensures doc.attribution.totalFireCount == |doc.allFires| == |fires|
    ensures |doc.impactfulFires| <= MaxImpactful && |doc.impactfulFires| <= |doc.allFires|
  {
  }

  /** impactful_fires holds the top 50 by rounded impact score, best first:
      no hotspot left out scores higher than one kept. */
  lemma ImpactfulAreTop(fires: seq<Hotspot>, dist: (Coord, Coord) -> real)
    requires IsDistance(dist)
    ensures var all := ScoredAll(fires, dist);
      var top := Take(SortDesc(all, ImpactKey), MaxImpactful);
      SortedDesc(top, ImpactKey) &&
      (forall x, y :: x in top && y in multiset(all) - multiset(top) ==> ImpactKey(x) >= ImpactKey(y))
  {
    TopDominatesDropped(ScoredAll(fires, dist), ImpactKey, MaxImpactful);
  }
}
