/** The health advisory helpers (src/utils/healthCalculator.js): the AQI
    category table, advice per population group, the mask recommendation
    and the capped exposure-risk index. */
module HealthCalculator {
  import opened Common

  datatype Category = Category(min: int, max: int, band: string, advice: string)

  /** HEALTH_CATEGORIES, from GOOD (index 0) to HAZARDOUS (index 5). */
  const Categories: seq<Category> := [
    Category(0, 50, "Safe", "Safe for all outdoor activities."),
    Category(51, 100, "Moderate", "Unusually sensitive people should limit prolonged exertion."),
    Category(101, 200, "Unhealthy for Sensitive Groups", "Children and elderly should reduce outdoor activities."),
    Category(201, 300, "Unhealthy", "Everyone should avoid prolonged exertion. Use N95 masks."),
    Category(301, 400, "Very Unhealthy", "Avoid all outdoor activities. Use air purifiers indoors."),
    Category(401, 5000, "Hazardous", "Health emergency. Stay indoors. Close all windows.")
  ]

  /** Which entry of HEALTH_CATEGORIES getHealthAdvisory returns: the first
      band whose upper edge (50, 100, 200, 300, 400) is not below aqi, and
      HAZARDOUS past them all. */
  function AdvisoryIndex(aqi: real): (k: nat)
    ensures k < |Categories|
    ensures k < 5 ==> aqi <= Categories[k].max as real
    ensures 0 < k ==> Categories[k - 1].max as real < aqi
  {
    if aqi <= 50.0 then 0
    else if aqi <= 100.0 then 1
    else if aqi <= 200.0 then 2
    else if aqi <= 300.0 then 3
    else if aqi <= 400.0 then 4
    else 5
  }

  /** getHealthAdvisory. */
  function HealthAdvisory(aqi: real): (c: Category)
    ensures c in Categories
    ensures c == Categories[0] <==> aqi <= 50.0
    ensures c == Categories[5] <==> 400.0 < aqi
  {
    Categories[AdvisoryIndex(aqi)]
  }

  /** For an integer AQI in [0, 5000] the category returned is the one
      whose [min, max] range holds it. */
  lemma AdvisoryContains(aqi: int)
    requires 0 <= aqi <= 5000
    ensures HealthAdvisory(aqi as real).min <= aqi <= HealthAdvisory(aqi as real).max
  {
    var k := AdvisoryIndex(aqi as real);
    if 0 < k {
      assert Categories[k].min == Categories[k - 1].max + 1;
    }
  }

  /** The category ranges tile [0, 5000] without gaps or overlaps, so the
      containing category is unique. */
  lemma CategoriesTile(aqi: int, k: nat)
    requires k < |Categories|
    requires Categories[k].min <= aqi <= Categories[k].max
    ensures HealthAdvisory(aqi as real) == Categories[k]
  {
  }

  /** A higher AQI never gets a milder category. */
  lemma AdvisoryMonotone(aqi: real, other: real)
    requires aqi <= other
    ensures AdvisoryIndex(aqi) <= AdvisoryIndex(other)
  {
  }

  // ----- personalised tips -----

  datatype TipLevel = Low | Medium | High | Critical

  /** The level getPersonalizedTips looks up: <= 100 low, <= 250 medium,
      <= 400 high, critical above. */
  function TipLevelOf(aqi: real): TipLevel {
    if aqi <= 100.0 then Low
    else if aqi <= 250.0 then Medium
    else if aqi <= 400.0 then High
    else Critical
  }

  datatype GroupAdvice = GroupAdvice(low: string, medium: string, high: string, critical: string)

  function AdviceAt(g: GroupAdvice, level: TipLevel): string {
    match level
    case Low => g.low
    case Medium => g.medium
    case High => g.high
    case Critical => g.critical
  }

  /** ADVISORIES_BY_GROUP. */
  const AdvisoriesByGroup: map<string, GroupAdvice> := map[
    "children" := GroupAdvice(
      "Safe to play outside.",
      "Take frequent breaks during outdoor play.",
      "Limit outdoor play. Consider indoor activities.",
      "Keep children indoors. Schools may implement emergency closures."),
    "elderly" := GroupAdvice(
      "Safe for morning walks.",
      "Limit prolonged outdoor exertion.",
      "Stay indoors. Monitor respiratory symptoms closely.",
      "High risk. Avoid all outdoor exposure. Keep medical help on standby."),
    "respiratory" := GroupAdvice(
      "Maintain regular medication schedule.",
      "Keep inhaler handy during outdoor movement.",
      "Avoid outdoors. Use air purifier in the bedroom.",
      "Medical emergency risk. Seek care if symptoms worsen even slightly."),
    "pregnant" := GroupAdvice(
      "Normal activities are safe.",
      "Avoid high-traffic areas during peak hours.",
      "Stay indoors in filtered air. Avoid outdoor exercise.",
      "Strict indoor protocol recommended to protect fetal development.")
  ]

  /** getPersonalizedTips: the group's advice at the AQI's level, or the
      UNHEALTHY category's advice when the lookup yields nothing (an
      unknown group, or an empty entry). */
  function PersonalizedTips(aqi: real, group: string): (tip: string)
    ensures tip != []
  {
    var fallback := Categories[3].advice;
    if group in AdvisoriesByGroup && AdviceAt(AdvisoriesByGroup[group], TipLevelOf(aqi)) != [] then
      AdviceAt(AdvisoriesByGroup[group], TipLevelOf(aqi))
    else
      fallback
  }

  /** A group outside the table gets the UNHEALTHY advice at every AQI. */
  lemma UnknownGroupFallsBack(aqi: real, group: string)
    requires group !in AdvisoriesByGroup
    ensures PersonalizedTips(aqi, group) == "Everyone should avoid prolonged exertion. Use N95 masks."
  {
  }

  /** A known group always gets its own entry at the AQI's level, since no
      entry is empty. */
  lemma KnownGroupGetsOwnAdvice(aqi: real, group: string)
    requires group in AdvisoriesByGroup
    ensures PersonalizedTips(aqi, group) == AdviceAt(AdvisoriesByGroup[group], TipLevelOf(aqi))
  {
    var g := AdvisoriesByGroup[group];
    assert g.low != [] && g.medium != [] && g.high != [] && g.critical != [] by {
      assert group == "children" || group == "elderly" || group == "respiratory" || group == "pregnant";
    }
  }

  function TipRank(level: TipLevel): nat {
    match level
    case Low => 0
    case Medium => 1
    case High => 2
    case Critical => 3
  }

  /** A higher AQI never gets a milder tip level. */
  lemma TipLevelMonotone(aqi: real, other: real)
    requires aqi <= other
    ensures TipRank(TipLevelOf(aqi)) <= TipRank(TipLevelOf(other))
  {
  }

  // ----- masks -----

  /** The rank of recommendMaskType's answer: strict `<` at 100, 200 and
      350. */
  function MaskIndex(aqi: real): (k: nat)
    ensures k <= 3
    ensures k == 0 <==> aqi < 100.0
    ensures k == 1 <==> 100.0 <= aqi < 200.0
    ensures k == 2 <==> 200.0 <= aqi < 350.0
    ensures k == 3 <==> 350.0 <= aqi
  {
    if aqi < 100.0 then 0
    else if aqi < 200.0 then 1
    else if aqi < 350.0 then 2
    else 3
  }

  const MaskAdvice: seq<string> := [
    "No mask required for general population.",
    "Cloth mask or surgical mask recommended in crowded areas.",
    "N95 Respirator strongly recommended for all outdoor activities.",
    "N99 or N100 Respirator mandatory. Ensure airtight seal."
  ]

  /** recommendMaskType. */
  function RecommendMaskType(aqi: real): (advice: string)
    ensures advice in MaskAdvice
    ensures advice == MaskAdvice[0] <==> aqi < 100.0
    ensures advice == MaskAdvice[3] <==> 350.0 <= aqi
  {
    MaskAdvice[MaskIndex(aqi)]
  }

  /** The mask advice only grows stronger with AQI. */
  lemma MaskMonotone(aqi: real, other: real)
    requires aqi <= other
    ensures MaskIndex(aqi) <= MaskIndex(other)
  {
  }

  // ----- risk -----

  /** predictHealthRisk: min(100, round(aqi / 100 * hours * vulnerability)),
      with the vulnerability score defaulting to 1 when not given. */
  function PredictHealthRisk(aqi: real, exposureHours: real, vulnerability: Option<real>): (risk: int)
    ensures risk <= 100
    ensures 0.0 <= aqi && 0.0 <= exposureHours && (vulnerability.None? || 0.0 <= vulnerability.value)
            ==> 0 <= risk
  {
    var v := if vulnerability.Some? then vulnerability.value else 1.0;
    RoundedRiskNonNegative(aqi, exposureHours, v);
    IntMin(100, JsRound(aqi / 100.0 * exposureHours * v))
  }

  lemma RoundedRiskNonNegative(aqi: real, hours: real, v: real)
    ensures 0.0 <= aqi && 0.0 <= hours && 0.0 <= v ==> 0 <= JsRound(aqi / 100.0 * hours * v)
  {
    if 0.0 <= aqi && 0.0 <= hours && 0.0 <= v {
      MulMonotone(0.0, aqi / 100.0, hours);
      MulMonotone(0.0, aqi / 100.0 * hours, v);
      JsRoundMonotone(0.0, aqi / 100.0 * hours * v);
      JsRoundOfInt(0);
    }
  }

  /** Longer exposure never lowers the risk index. */
  lemma RiskMonotoneInHours(aqi: real, hours: real, longer: real, vulnerability: Option<real>)
    requires 0.0 <= aqi && hours <= longer
    requires vulnerability.None? || 0.0 <= vulnerability.value
    ensures PredictHealthRisk(aqi, hours, vulnerability) <= PredictHealthRisk(aqi, longer, vulnerability)
  {
    var v := if vulnerability.Some? then vulnerability.value else 1.0;
    ExposureMonotone(aqi / 100.0, hours, longer, v);
    JsRoundMonotone(aqi / 100.0 * hours * v, aqi / 100.0 * longer * v);
  }

  lemma ExposureMonotone(a: real, hours: real, longer: real, v: real)
    requires 0.0 <= a && hours <= longer && 0.0 <= v
    ensures a * hours * v <= a * longer * v
  {
    MulMonotone(hours, longer, a);
    assert a * hours <= a * longer;
    MulMonotone(a * hours, a * longer, v);
  }

  /** Leaving out the vulnerability score is the same as passing 1. */
  lemma DefaultVulnerability(aqi: real, hours: real)
    ensures PredictHealthRisk(aqi, hours, None) == PredictHealthRisk(aqi, hours, Some(1.0))
  {
  }
}
