/** The pollution-source explainer (src/utils/sourceInsights.js): picks the
    dominant source of an attribution, explains it with the area's
    metadata, ranks the remaining sources, and recommends actions. Source
    values are the whole percentages the attribution step produces. */
module SourceInsights {
  import opened Common
  import opened Ranking

  datatype Source = Source(name: string, value: int)

  /** The fields of an area's metadata record that the explainer reads. */
  datatype AreaMeta = AreaMeta(kind: string, landmarks: seq<string>, windSensitivity: string,
                               constructionSites: nat)

  datatype Block = Block(title: string, factors: seq<string>)

  datatype Brief = Brief(name: string, value: int, desc: string)

  datatype Explanation = Explanation(primary: Block, secondary: Block, tertiary: seq<Brief>)

  datatype Recommendations = Recommendations(authorities: seq<string>, citizens: seq<string>, impact: string)

  /** The ten area ids AREA_METADATA holds. */
  const MetaIds: seq<string> := ["anand-vihar", "cp", "dwarka", "rohini", "noida", "gurgaon",
                                 "faridabad", "ghaziabad", "rk-puram", "punjabi-bagh"]

  /** AREA_METADATA[areaId]; None for an id the table does not hold. */
  function AreaMetadata(areaId: string): (m: Option<AreaMeta>)
    ensures m.Some? <==> areaId in MetaIds
    ensures m.Some? ==> |m.value.landmarks| == 3
  {
    if areaId == "anand-vihar" then
      Some(AreaMeta("Industrial Hub", ["ISBT Bus Terminal", "Kaushambi Industrial Area", "NH-24 Highway"],
                    "High (East-West corridor)", 12))
    else if areaId == "cp" then
      Some(AreaMeta("Commercial Center", ["Outer Circle Traffic", "Metro Interchange", "Commercial Complexes"],
                    "Moderate", 4))
    else if areaId == "dwarka" then
      Some(AreaMeta("Residential Zone", ["IGI Airport Path", "Metro Line", "Residential Societies"],
                    "Low", 18))
    else if areaId == "rohini" then
      Some(AreaMeta("Residential/Mixed", ["Outer Ring Road", "Waste Management Plants", "Residential Blocks"],
                    "Moderate", 9))
    else if areaId == "noida" then
      Some(AreaMeta("Tech/Industrial", ["Expressway", "SEZ Zones", "Construction Projects"],
                    "High (Open plains)", 22))
    else if areaId == "gurgaon" then
      Some(AreaMeta("Corporate Hub", ["Cyber Hub", "NH-8", "Diesel Generators"],
                    "Moderate", 15))
    else if areaId == "faridabad" then
      Some(AreaMeta("Heavy Industrial", ["Industrial Sectors", "Brick Kilns", "Thermal Power Plant"],
                    "High", 8))
    else if areaId == "ghaziabad" then
      Some(AreaMeta("Industrial/Transit", ["GT Road", "Industrial Area", "Rail Yards"],
                    "High", 14))
    else if areaId == "rk-puram" then
      Some(AreaMeta("Government Residential", ["Ring Road", "Embassies", "Green Cover"],
                    "Low", 3))
    else if areaId == "punjabi-bagh" then
      Some(AreaMeta("West Delhi Transport", ["Rohtak Road", "Ring Road Junction", "Commercial Markets"],
                    "Moderate", 6))
    else None
  }

  /** `AREA_METADATA[areaId] || AREA_METADATA['anand-vihar']`. */
  function MetaFor(areaId: string): (m: AreaMeta)
    ensures |m.landmarks| == 3
    ensures AreaMetadata(areaId).None? ==> m == AreaMetadata("anand-vihar").value
    ensures AreaMetadata(areaId).Some? ==> m == AreaMetadata(areaId).value
  {
    match AreaMetadata(areaId)
    case Some(m) => m
    case None => AreaMetadata("anand-vihar").value
  }

  function Value(s: Source): real { s.value as real }

  /** The position the reduce in getDominantSource ends on: the running
      winner is kept only when strictly larger, so among equal maxima the
      last one wins. */
  function DominantIndex(sources: seq<Source>): (i: nat)
    requires |sources| > 0
    ensures i < |sources|
    ensures forall j :: 0 <= j < |sources| ==> sources[j].value <= sources[i].value
    ensures forall j :: i < j < |sources| ==> sources[j].value < sources[i].value
  {
    if |sources| == 1 then 0
    else
      var p := DominantIndex(sources[..|sources| - 1]);
      if sources[p].value > sources[|sources| - 1].value then p else |sources| - 1
  }

  /** getDominantSource; reducing an empty list throws (None). */
  function Dominant(sources: seq<Source>): (d: Option<Source>)
    ensures d.None? <==> sources == []
    ensures d.Some? ==> d.value in sources && forall s :: s in sources ==> s.value <= d.value.value
  {
    if sources == [] then None else Some(sources[DominantIndex(sources)])
  }

  /** sources.filter(s => s.name !== name). */
  function Without(sources: seq<Source>, name: string): (r: seq<Source>)
    ensures forall s :: s in r <==> s in sources && s.name != name
    ensures |r| <= |sources|
  {
    if sources == [] then []
    else Without(sources[..|sources| - 1], name) +
         (if sources[|sources| - 1].name != name then [sources[|sources| - 1]] else [])
  }

  function FirstWord(s: string): string {
    if s == [] || s[0] == ' ' then [] else [s[0]] + FirstWord(s[1..])
  }

  function Percent(name: string, value: int): string {
    name + " (" + IntToString(value) + "%)"
  }

  /** The primary block: Industrial and Vehicular have their own text, every
      other source the generic one. */
  function Primary(meta: AreaMeta, d: Source): (b: Block)
    requires |meta.landmarks| == 3
    ensures |b.factors| == 3
  {
    if d.name == "Industrial" then
      Block("Industrial Emissions (" + IntToString(d.value) + "%)",
            ["Proximity to " + meta.landmarks[1] + " active zone",
             FirstWord(meta.windSensitivity) + " wind sensitivity carrying pollutants",
             PeakShift])
    else if d.name == "Vehicular" then
      Block("Vehicular Emissions (" + IntToString(d.value) + "%)",
            ["Heavy congestion on " + meta.landmarks[0], EveningPeak, DieselUnrestricted])
    else
      Block(Percent(d.name, d.value),
            ["Localized activity in " + meta.kind, TrappingConditions, AboveBaseline])
  }

  // The fixed lines of the primary block.
  const PeakShift := "Peak manufacturing shift activity correlates with elevated readings"
  const EveningPeak := "Evening rush hour (17:00-21:00) peak intensity"
  const DieselUnrestricted := "Diesel transport vehicle movement restrictions not yet active"
  const TrappingConditions := "Meteorological conditions trapping pollutants"
  const AboveBaseline := "Activity exceeds seasonal baseline by 15%"

  /** Which of the three primary texts a source name selects. */
  function Category(name: string): nat {
    if name == "Industrial" then 0 else if name == "Vehicular" then 1 else 2
  }

  /** The primary factors depend on the dominant name only through its
      category, and the title always carries the dominant value. */
  lemma PrimaryByCategory(meta: AreaMeta, d1: Source, d2: Source)
    requires |meta.landmarks| == 3 && Category(d1.name) == Category(d2.name)
    ensures Primary(meta, d1).factors == Primary(meta, d2).factors
    ensures d1.value == d2.value && (Category(d1.name) < 2 || d1.name == d2.name) ==>
      Primary(meta, d1).title == Primary(meta, d2).title
  {
  }

  /** getSecondaryFactors: always two lines. */
  function SecondaryFactors(name: string, meta: AreaMeta, hour: int): (fs: seq<string>)
    requires |meta.landmarks| == 3
    ensures |fs| == 2
  {
    if name == "Vehicular" then
      ["Spillover traffic from " + meta.landmarks[0],
       if hour > 17 then "Evening commute contributions" else "Mid-day commercial transport"]
    else if name == "Industrial" then
      ["Background emissions from " + meta.landmarks[1], NeighbourWind]
    else if name == "Construction" then
      [IntToString(meta.constructionSites) + " active sites reported in 5km radius", AuditPending]
    else if name == "Stubble" then StubbleFactors
    else OtherFactors
  }

  // The fixed lines of the secondary block.
  const NeighbourWind := "Wind transport from neighboring industrial sectors"
  const AuditPending := "Dust control compliance audit pending"
  const StubbleFactors: seq<string> :=
    ["Seasonal crop residue burning drift", "Inversion layer trapping smoke at lower altitudes"]
  const OtherFactors: seq<string> := ["Local waste burning events", "Residential heating and cooking emissions"]

  /** getBriefDesc. */
  function BriefDesc(name: string): string {
    if name == "Vehicular" then "Local traffic & transport"
    else if name == "Industrial" then "Factory output"
    else if name == "Construction" then "Dust & demolition"
    else if name == "Stubble" then "Farm fire smoke"
    else if name == "Other" then "Waste burning/Residential"
    else "Minor sources"
  }

  function Briefs(sources: seq<Source>): (r: seq<Brief>)
    ensures |r| == |sources|
    ensures forall i :: 0 <= i < |sources| ==>
      r[i] == Brief(sources[i].name, sources[i].value, BriefDesc(sources[i].name))
  {
    seq(|sources|, i requires 0 <= i < |sources| =>
      Brief(sources[i].name, sources[i].value, BriefDesc(sources[i].name)))
  }

  /** The best-ranked source not named as the dominant one, if any. */
  function SecondarySource(sources: seq<Source>, d: Source): Option<Source> {
    var rest := SortDesc(Without(sources, d.name), Value);
    if rest == [] then None else Some(rest[0])
  }

  /** The secondary source comes from the input, is named differently from
      the dominant one, and has the largest value among such sources; it
      exists exactly when some source is named differently. */
  lemma SecondaryIsRunnerUp(sources: seq<Source>, d: Source)
    ensures SecondarySource(sources, d).Some? <==> exists s :: s in sources && s.name != d.name
    ensures var sec := SecondarySource(sources, d);
      sec.Some? ==>
        sec.value in sources && sec.value.name != d.name &&
        forall s :: s in sources && s.name != d.name ==> s.value <= sec.value.value
  {
    var w := Without(sources, d.name);
    var rest := SortDesc(w, Value);
    SortDescSorted(w, Value);
    if exists s :: s in sources && s.name != d.name {
      var s :| s in sources && s.name != d.name;
      assert s in multiset(w);
    }
    if rest != [] {
      assert rest[0] in multiset(w);
      forall s | s in sources && s.name != d.name
        ensures s.value <= rest[0].value
      {
        assert s in multiset(rest);
        var k :| 0 <= k < |rest| && rest[k] == s;
        assert k == 0 || Value(rest[0]) >= Value(rest[k]);
      }
    }
  }

  /** generateSourceExplanation; None when it throws (no sources, or no
      source named differently from the dominant one). */
  function SourceExplanation(areaId: string, sources: seq<Source>, hour: int): (e: Option<Explanation>)
    ensures e.None? <==> sources == [] || forall s :: s in sources ==> s.name == Dominant(sources).value.name
    ensures e.Some? ==> |e.value.primary.factors| == 3 && |e.value.secondary.factors| == 2
    ensures e.Some? ==> exists s :: s in sources && s.name != Dominant(sources).value.name &&
                                  e.value.secondary.title == Percent(s.name, s.value)
  {
    var meta := MetaFor(areaId);
    match Dominant(sources)
    case None => None
    case Some(d) =>
      SecondaryIsRunnerUp(sources, d);
      match SecondarySource(sources, d)
      case None => None
      case Some(sec) =>
        Some(Explanation(Primary(meta, d),
                         Block(Percent(sec.name, sec.value), SecondaryFactors(sec.name, meta, hour)),
                         Briefs(SortDesc(Without(Without(sources, d.name), sec.name), Value))))
  }

  /** Ranked briefs: by non-increasing value, one for each source. */
  lemma RankedBriefs(rest: seq<Source>)
    ensures var t := Briefs(SortDesc(rest, Value));
      (forall i, j :: 0 <= i < j < |t| ==> t[i].value >= t[j].value) &&
      (forall s: Source :: s in rest <==> exists i :: 0 <= i < |t| && t[i] == Brief(s.name, s.value, BriefDesc(s.name)))
  {
    var sorted := SortDesc(rest, Value);
    SortDescSorted(rest, Value);
    var t := Briefs(sorted);
    forall s | s in rest
      ensures exists i :: 0 <= i < |t| && t[i] == Brief(s.name, s.value, BriefDesc(s.name))
    {
      assert s in multiset(sorted);
      var i :| 0 <= i < |sorted| && sorted[i] == s;
      assert t[i] == Brief(s.name, s.value, BriefDesc(s.name));
    }
    forall s: Source | exists i :: 0 <= i < |t| && t[i] == Brief(s.name, s.value, BriefDesc(s.name))
      ensures s in rest
    {
      var i :| 0 <= i < |t| && t[i] == Brief(s.name, s.value, BriefDesc(s.name));
      assert sorted[i] == s;
      assert s in multiset(rest);
    }
  }

  /** The tertiary list holds exactly the sources named neither dominant
      nor secondary, by non-increasing value. */
  lemma TertiaryIsTheRest(areaId: string, sources: seq<Source>, hour: int)
    requires SourceExplanation(areaId, sources, hour).Some?
    ensures var d := Dominant(sources).value;
      var sec := SecondarySource(sources, d).value;
      var t := SourceExplanation(areaId, sources, hour).value.tertiary;
      (forall i, j :: 0 <= i < j < |t| ==> t[i].value >= t[j].value) &&
      (forall s :: s in sources && s.name != d.name && s.name != sec.name <==>
        exists i :: 0 <= i < |t| && t[i] == Brief(s.name, s.value, BriefDesc(s.name)))
  {
    var d := Dominant(sources).value;
    var sec := SecondarySource(sources, d).value;
    var rest := Without(Without(sources, d.name), sec.name);
    assert SourceExplanation(areaId, sources, hour).value.tertiary == Briefs(SortDesc(rest, Value));
    RankedBriefs(rest);
  }

  /** An unknown area is explained with the 'anand-vihar' metadata. */
  lemma UnknownAreaFallsBack(areaId: string, sources: seq<Source>, hour: int)
    requires AreaMetadata(areaId).None?
    ensures SourceExplanation(areaId, sources, hour) == SourceExplanation("anand-vihar", sources, hour)
  {
  }

  /** The two dominant sources whose texts quote the area's metadata. */
  predicate NeedsArea(name: string) {
    name == "Vehicular" || name == "Construction"
  }

  /** The sources with a third authority action. */
  predicate Specific(name: string) {
    name == "Industrial" || name == "Vehicular" || name == "Construction"
  }

  function AuthorityActions(name: string, meta: Option<AreaMeta>): (a: seq<string>)
    requires NeedsArea(name) ==> meta.Some? && |meta.value.landmarks| == 3
    ensures |a| == if Specific(name) then 3 else 2
  {
    if name == "Industrial" then IndustrialAuthorities
    else if name == "Vehicular" then
      ["Increase traffic management on " + meta.value.landmarks[0], RestrictDiesel, MoreTransport]
    else if name == "Construction" then
      ["Inspect " + IntToString(meta.value.constructionSites) + " active sites for dust control",
       SprinkleWater, HaltDemolition]
    else OtherAuthorities
  }

  // The fixed texts of the authority actions.
  const IndustrialAuthorities: seq<string> :=
    ["Deploy mobile monitoring units near industrial clusters",
     "Enforce emission caps on top 5 polluting units",
     "Conduct surprise audits on filtration systems"]
  const RestrictDiesel := "Restrict heavy diesel vehicles during peak hours"
  const MoreTransport := "Increase frequency of public transport (Metro/Bus)"
  const SprinkleWater := "Mandate extensive water sprinkling"
  const HaltDemolition := "Halt non-essential demolition activities"
  const OtherAuthorities: seq<string> := ["Monitor satellite feeds for farm fires", "Enforce ban on waste burning"]

  function CitizenActions(name: string, meta: Option<AreaMeta>): (c: seq<string>)
    requires NeedsArea(name) ==> meta.Some? && |meta.value.landmarks| == 3
    ensures |c| == 3
  {
    if name == "Industrial" then IndustrialCitizens
    else if name == "Vehicular" then
      [Carpool, "Avoid " + meta.value.landmarks[0] + " during evening rush (18:00-21:00)", EnginesOff]
    else if name == "Construction" then ConstructionCitizens
    else OtherCitizens
  }

  // The fixed texts of the citizen actions.
  const IndustrialCitizens: seq<string> :=
    ["Report visible dark smoke to PCBC helpline",
     "Avoid outdoor exertion near industrial zones",
     "Use air purifiers indoors (HEPA H13/H14)"]
  const Carpool := "Carpool or use Metro for commute"
  const EnginesOff := "Turn off engines at red lights (Red Light On, Gaadi Off)"
  const ConstructionCitizens: seq<string> :=
    ["Report uncovered construction material",
     "Wet sweep areas around homes to reduce dust",
     "Wear N95 masks to filter particulate matter"]
  const OtherCitizens: seq<string> :=
    ["Do not burn dry leaves or waste", "Wear masks outdoors", "Keep windows closed to prevent smoke entry"]

  /** The quoted improvement, "-round(aqi*0.25) to -round(aqi*0.35) AQI points". */
  function ImpactText(aqi: real): string {
    "-" + IntToString(JsRound(aqi * 0.25)) + " to -" + IntToString(JsRound(aqi * 0.35)) + " AQI points"
  }

  /** generateRecommendations. The metadata lookup has no fallback here, so
      for an unknown area a Vehicular or Construction dominant source
      throws (None), as does an empty source list. */
  function RecommendationsFor(sources: seq<Source>, areaId: string, aqi: real): (r: Option<Recommendations>)
    ensures r.None? <==> sources == [] || (NeedsArea(Dominant(sources).value.name) && areaId !in MetaIds)
    ensures r.Some? ==> r.value.impact == ImpactText(aqi)
  {
    match Dominant(sources)
    case None => None
    case Some(d) =>
      if NeedsArea(d.name) && AreaMetadata(areaId).None? then None
      else Some(Recommendations(AuthorityActions(d.name, AreaMetadata(areaId)),
                                CitizenActions(d.name, AreaMetadata(areaId)),
                                ImpactText(aqi)))
  }

  /** Three citizen actions always; three authority actions for an
      Industrial, Vehicular or Construction dominant source and two
      otherwise; it fails only for no sources or a missing area that the
      chosen text needs. */
  lemma RecommendationCounts(sources: seq<Source>, areaId: string, aqi: real)
    ensures var r := RecommendationsFor(sources, areaId, aqi);
      var d := Dominant(sources);
      (r.None? <==>
        (d.None? ||
         ((d.value.name == "Vehicular" || d.value.name == "Construction") && AreaMetadata(areaId).None?))) &&
      (r.Some? ==>
        (|r.value.citizens| == 3 &&
         (|r.value.authorities| == 3 <==>
           (d.value.name == "Industrial" || d.value.name == "Vehicular" || d.value.name == "Construction")) &&
         (|r.value.authorities| == 2 || |r.value.authorities| == 3)))
  {
  }

  /** The quoted improvement band: the lower figure never exceeds the upper
      one for a non-negative AQI. */
  lemma ImpactBandOrdered(aqi: real)
    requires aqi >= 0.0
    ensures JsRound(aqi * 0.25) <= JsRound(aqi * 0.35)
  {
    JsRoundMonotone(aqi * 0.25, aqi * 0.35);
  }
}
