/** The synthetic air-quality generator (src/utils/dataGenerator.js): the
    AQI band table, pollutant ratios, the per-area AQI of the moment, the
    normalised source split, and the dense sensor network. Math.random()
    and the Date fields are parameters. */
module DataGenerator {
  import opened Common
  import opened Ranking
  import SourceInsights
  import FireEngine

  datatype Area = Area(id: string, name: string, baseAqi: nat, kind: string)

  /** The AREAS table, in its order. */
  const Areas: seq<Area> := [
    Area("anand-vihar", "Anand Vihar", 240, "Industrial"),
    Area("cp", "Connaught Place", 180, "Commercial"),
    Area("dwarka", "Dwarka Sector 8", 160, "Residential"),
    Area("rohini", "Rohini", 210, "Residential"),
    Area("noida", "Noida Sector 62", 175, "Mixed"),
    Area("gurgaon", "Gurgaon Cyber City", 165, "Commercial"),
    Area("faridabad", "Faridabad", 195, "Industrial"),
    Area("ghaziabad", "Ghaziabad", 230, "Industrial"),
    Area("rk-puram", "RK Puram", 155, "Residential"),
    Area("punjabi-bagh", "Punjabi Bagh", 170, "Residential"),
    Area("okhla", "Okhla Phase 2", 225, "Industrial"),
    Area("najafgarh", "Najafgarh", 150, "Mixed"),
    Area("shadipur", "Shadipur", 250, "Industrial"),
    Area("karol-bagh", "Karol Bagh", 190, "Commercial"),
    Area("lodhi-road", "Lodhi Road", 130, "Residential"),
    Area("igi", "IGI Airport (T3)", 160, "Transport"),
    Area("bawana", "Bawana", 260, "Industrial"),
    Area("mundka", "Mundka", 270, "Industrial"),
    Area("alipur", "Alipur", 165, "Mixed"),
    Area("nehru-nagar", "Nehru Nagar", 185, "Residential"),
    Area("jahangirpuri", "Jahangirpuri", 255, "Industrial"),
    Area("wazirpur", "Wazirpur", 265, "Industrial"),
    Area("aurobindo", "Sri Aurobindo Marg", 145, "Mixed"),
    Area("patparganj", "Patparganj", 180, "Industrial"),
    Area("sonia-vihar", "Sonia Vihar", 175, "Residential")
  ]

  /** The index AREAS.find stops at, or |areas| when no id matches. */
  function FindIndex(areas: seq<Area>, areaId: string): (i: nat)
    ensures i <= |areas|
    ensures i < |areas| ==> areas[i].id == areaId
    ensures forall j :: 0 <= j < i ==> areas[j].id != areaId
  {
    if areas == [] then 0
    else if areas[0].id == areaId then 0
    else 1 + FindIndex(areas[1..], areaId)
  }

  /** `AREAS.find(a => a.id === areaId) || AREAS[0]`. */
  function AreaFor(areaId: string): (a: Area)
    ensures a in Areas
    ensures (exists j :: 0 <= j < |Areas| && Areas[j].id == areaId) ==> a.id == areaId
    ensures (forall j :: 0 <= j < |Areas| ==> Areas[j].id != areaId) ==> a == Areas[0]
  {
    var i := FindIndex(Areas, areaId);
    if i < |Areas| then Areas[i] else Areas[0]
  }

  // ----- bands and ratios -----

  datatype Level = Level(band: string, color: string, textColor: string, description: string)

  /** getAirQualityLevel. */
  function AirQualityLevel(aqi: real): (l: Level)
    ensures l.band == "Good" <==> aqi <= 50.0
    ensures l.band == "Severe" <==> 400.0 < aqi
    ensures l.band == "Good" || l.band == "Satisfactory" ==> l.textColor == "text-success"
  {
    if aqi <= 50.0 then Level("Good", "#10B981", "text-success", GoodText)
    else if aqi <= 100.0 then Level("Satisfactory", "#84CC16", "text-success", SatisfactoryText)
    else if aqi <= 200.0 then Level("Moderate", "#EAB308", "text-warning", ModerateText)
    else if aqi <= 300.0 then Level("Poor", "#F97316", "text-warning", PoorText)
    else if aqi <= 400.0 then Level("Very Poor", "#EF4444", "text-danger", VeryPoorText)
    else Level("Severe", "#7C3AED", "text-purple-500", SevereText)
  }

  // The band descriptions.
  const GoodText := "Air quality is satisfactory."
  const SatisfactoryText := "Minor breathing discomfort to sensitive people."
  const ModerateText := "Breathing discomfort to people with lungs/asthma/heart diseases."
  const PoorText := "Breathing discomfort to most people on prolonged exposure."
  const VeryPoorText := "Respiratory illness on prolonged exposure."
  const SevereText := "Affects healthy people and seriously impacts those with existing diseases."

  /** The position of a label in the scale, Good = 0 .. Severe = 5. */
  function LabelRank(band: string): nat {
    if band == "Good" then 0
    else if band == "Satisfactory" then 1
    else if band == "Moderate" then 2
    else if band == "Poor" then 3
    else if band == "Very Poor" then 4
    else 5
  }

  /** The band an AQI falls in, 0 for Good .. 5 for Severe. */
  function BandIndex(aqi: real): (k: nat)
    ensures k <= 5
  {
    if aqi <= 50.0 then 0 else if aqi <= 100.0 then 1 else if aqi <= 200.0 then 2
    else if aqi <= 300.0 then 3 else if aqi <= 400.0 then 4 else 5
  }

  /** The label getAirQualityLevel returns sits at the AQI's band on the
      scale. */
  lemma LevelRank(aqi: real)
    ensures LabelRank(AirQualityLevel(aqi).band) == BandIndex(aqi)
  {
    if aqi <= 50.0 {
    } else if aqi <= 100.0 {
      assert AirQualityLevel(aqi).band == "Satisfactory";
    } else if aqi <= 200.0 {
      assert AirQualityLevel(aqi).band == "Moderate";
    } else if aqi <= 300.0 {
      assert AirQualityLevel(aqi).band == "Poor";
    } else if aqi <= 400.0 {
      assert AirQualityLevel(aqi).band == "Very Poor";
    } else {
      assert AirQualityLevel(aqi).band == "Severe";
    }
  }

  /** A higher AQI never gets a milder label. */
  lemma AirQualityMonotone(aqi: real, other: real)
    requires aqi <= other
    ensures LabelRank(AirQualityLevel(aqi).band) <= LabelRank(AirQualityLevel(other).band)
  {
    LevelRank(aqi);
    LevelRank(other);
  }

  datatype Pollutants = Pollutants(pm25: int, pm10: int, no2: int, so2: int, co: int)

  /** calculatePollutants: each pollutant a fixed ratio of the AQI, rounded. */
  function PollutantsOf(aqi: real): (p: Pollutants)
    ensures 0.0 <= aqi ==> p.pm25 >= 0 && p.pm10 >= 0 && p.no2 >= 0 && p.so2 >= 0 && p.co >= 0
    ensures 0.0 <= aqi ==> p.so2 <= p.no2 <= p.pm25 <= p.pm10 <= p.co
  {
    Pollutants(JsRound(aqi * 0.65), JsRound(aqi * 0.92), JsRound(aqi * 0.09),
               JsRound(aqi * 0.007), JsRound(aqi * 2.4))
  }

  /** Every pollutant is its ratio of the AQI to within half a unit, and all
      grow with the AQI. */
  lemma PollutantRatios(aqi: real, other: real)
    ensures var p := PollutantsOf(aqi);
      aqi * 0.65 - 0.5 < p.pm25 as real <= aqi * 0.65 + 0.5 &&
      aqi * 0.92 - 0.5 < p.pm10 as real <= aqi * 0.92 + 0.5 &&
      aqi * 0.09 - 0.5 < p.no2 as real <= aqi * 0.09 + 0.5 &&
      aqi * 0.007 - 0.5 < p.so2 as real <= aqi * 0.007 + 0.5 &&
      aqi * 2.4 - 0.5 < p.co as real <= aqi * 2.4 + 0.5
    ensures aqi <= other ==>
      var p := PollutantsOf(aqi);
      var q := PollutantsOf(other);
      p.pm25 <= q.pm25 && p.pm10 <= q.pm10 && p.no2 <= q.no2 && p.so2 <= q.so2 && p.co <= q.co
  {
    if aqi <= other {
      JsRoundMonotone(aqi * 0.65, other * 0.65);
      JsRoundMonotone(aqi * 0.92, other * 0.92);
      JsRoundMonotone(aqi * 0.09, other * 0.09);
      JsRoundMonotone(aqi * 0.007, other * 0.007);
      JsRoundMonotone(aqi * 2.4, other * 2.4);
    }
  }

  // ----- getCurrentAQI -----

  /** SEASONAL_FACTORS, by month 0 (January) .. 11. */
  function SeasonalFactor(month: nat): (f: real)
    requires month < 12
    ensures 0.5 <= f <= 2.2
  {
    [1.5, 1.3, 1.1, 0.9, 1.2, 0.8, 0.5, 0.6, 0.8, 1.8, 2.2, 1.7][month]
  }

  function TimeOfDayFactor(hour: nat): real {
    if 8 <= hour <= 10 then 1.25
    else if 18 <= hour <= 21 then 1.35
    else if hour >= 23 || hour <= 4 then 0.75
    else 1.0
  }

  function WeekendFactor(day: nat): real {
    if day == 0 || day == 6 then 0.9 else 1.0
  }

  /** getCurrentAQI's multiplier: the hour's factor, the weekend
      discount and the month's factor. */
  function Multiplier(hour: nat, month: nat, day: nat): real
    requires month < 12
  {
    TimeOfDayFactor(hour) * WeekendFactor(day) * SeasonalFactor(month)
  }

  /** The multiplier lies between 0.3375 and 2.97. */
  lemma MultiplierBounds(hour: nat, month: nat, day: nat)
    requires month < 12
    ensures 0.3375 <= Multiplier(hour, month, day) <= 2.97
  {
    var t := TimeOfDayFactor(hour) * WeekendFactor(day);
    assert 0.675 <= t <= 1.35;
    MulMonotone(0.675, t, SeasonalFactor(month));
    MulMonotone(t, 1.35, SeasonalFactor(month));
    MulMonotone(0.5, SeasonalFactor(month), 0.675);
    MulMonotone(SeasonalFactor(month), 2.2, 1.35);
  }

  /** The step-by-step build of getCurrentAQI's multiplier: the hour's
      factor, then the weekend discount, then the month's factor. */
  method BuildMultiplier(hour: nat, month: nat, day: nat) returns (multiplier: real)
    requires month < 12
    ensures multiplier == Multiplier(hour, month, day)
  {
    multiplier := 1.0;
    if 8 <= hour <= 10 {
      multiplier := multiplier * 1.25;
    } else if 18 <= hour <= 21 {
      multiplier := multiplier * 1.35;
    } else if hour >= 23 || hour <= 4 {
      multiplier := multiplier * 0.75;
    }
    if day == 0 || day == 6 {
      multiplier := multiplier * 0.9;
    }
    multiplier := multiplier * SeasonalFactor(month);
  }

  /** The base AQI times the multiplier times the noise 0.9 + 0.2 r. */
  function Scaled(base: nat, multiplier: real, r: real): (x: real)
    requires 0.0 <= multiplier && 0.0 <= r
    ensures 0.0 <= x
  {
    var noise := r * 0.2 + 0.9;
    MulMonotone(0.0, base as real, multiplier);
    MulMonotone(0.0, base as real * multiplier, noise);
    base as real * multiplier * noise
  }

  /** getCurrentAQI: the area's base AQI times the multiplier, scaled by
      noise 0.9 + 0.2 r, rounded, and capped at 650. */
  method CurrentAqi(areaId: string, hour: nat, month: nat, day: nat, r: real) returns (aqi: int)
    requires hour < 24 && month < 12 && day < 7 && 0.0 <= r < 1.0
    ensures 0 <= aqi <= 650
    ensures aqi == IntMin(650, JsRound(Scaled(AreaFor(areaId).baseAqi, Multiplier(hour, month, day), r)))
  {
    var area := AreaFor(areaId);
    var multiplier := BuildMultiplier(hour, month, day);
    MultiplierBounds(hour, month, day);
    var raw := Scaled(area.baseAqi, multiplier, r);
    RoundNonNegative(raw);
    var finalAqi := JsRound(raw);
    aqi := IntMin(650, finalAqi);
  }

  lemma RoundNonNegative(x: real)
    requires 0.0 <= x
    ensures 0 <= JsRound(x)
  {
    JsRoundMonotone(0.0, x);
    JsRoundOfInt(0);
  }

  /** An id missing from AREAS reads as the first area, Anand Vihar. */
  lemma UnknownAreaIsFirst(areaId: string)
    requires forall j :: 0 <= j < |Areas| ==> Areas[j].id != areaId
    ensures AreaFor(areaId).id == "anand-vihar" && AreaFor(areaId).baseAqi == 240
  {
  }

  // ----- calculateSources -----

  /** The five raw shares in key order: Vehicular, Industrial, Construction,
      Stubble, Other. */
  datatype Shares = Shares(vehicular: int, industrial: int, construction: int, stubble: int, other: int)

  function BaseShares(kind: string): Shares {
    if kind == "Industrial" then Shares(25, 45, 10, 5, 15)
    else if kind == "Commercial" then Shares(50, 10, 15, 5, 20)
    else if kind == "Residential" then Shares(25, 10, 20, 5, 40)
    else Shares(30, 20, 15, 5, 30)
  }

  function SharesTotal(b: Shares): int {
    b.vehicular + b.industrial + b.construction + b.stubble + b.other
  }

  /** One share as a percentage of the total, before rounding. */
  function PercentOf(part: int, total: int): real
    requires total > 0
  {
    part as real / total as real * 100.0
  }

  /** Object.keys(base).map(...): each share as a rounded percentage of the
      total, in key order. */
  function Normalised(b: Shares): (s: seq<SourceInsights.Source>)
    requires SharesTotal(b) > 0
    ensures |s| == 5
  {
    var t := SharesTotal(b);
    [SourceInsights.Source("Vehicular", JsRound(PercentOf(b.vehicular, t))),
     SourceInsights.Source("Industrial", JsRound(PercentOf(b.industrial, t))),
     SourceInsights.Source("Construction", JsRound(PercentOf(b.construction, t))),
     SourceInsights.Source("Stubble", JsRound(PercentOf(b.stubble, t))),
     SourceInsights.Source("Other", JsRound(PercentOf(b.other, t)))]
  }

  /** The raw shares after the time-of-day and season adjustments: morning
      and evening rush add 15 and 20 to Vehicular, factory hours add 10 to
      Industrial, months 9 and 10 add 25 to Stubble. Every share stays
      positive and none shrinks. */
  function Adjusted(kind: string, hour: int, month: int): (b: Shares)
    ensures b.vehicular > 0 && b.industrial > 0 && b.construction > 0 && b.stubble > 0 && b.other > 0
    ensures var base := BaseShares(kind);
      b.vehicular >= base.vehicular && b.industrial >= base.industrial &&
      b.construction == base.construction && b.stubble >= base.stubble && b.other == base.other
  {
    var base := BaseShares(kind);
    Shares(base.vehicular + (if 8 <= hour <= 11 then 15 else 0) + (if 17 <= hour <= 21 then 20 else 0),
           base.industrial + (if 10 <= hour <= 16 then 10 else 0),
           base.construction,
           base.stubble + (if month == 9 || month == 10 then 25 else 0),
           base.other)
  }

  /** The successive `+=` adjustments of calculateSources on the local base map. */
  method AdjustedShares(kind: string, hour: int, month: int) returns (b: Shares)
    ensures b == Adjusted(kind, hour, month)
  {
    b := BaseShares(kind);
    if 8 <= hour <= 11 {
      b := b.(vehicular := b.vehicular + 15);
    }
    if 17 <= hour <= 21 {
      b := b.(vehicular := b.vehicular + 20);
    }
    if 10 <= hour <= 16 {
      b := b.(industrial := b.industrial + 10);
    }
    if month == 9 || month == 10 {
      b := b.(stubble := b.stubble + 25);
    }
  }

  function SourceValue(s: SourceInsights.Source): real { s.value as real }

  /** calculateSources: the normalised shares of the area's adjusted
      split (the first area for an unknown id), sorted by value, largest
      first, equal values keeping key order. */
  method CalculateSources(areaId: string, hour: int, month: int) returns (sources: seq<SourceInsights.Source>)
    ensures |sources| == 5
    ensures SortedDesc(sources, SourceValue)
    ensures multiset(sources) == multiset(Normalised(Adjusted(AreaFor(areaId).kind, hour, month)))
    ensures forall k :: KeyClass(sources, SourceValue, k) ==
                        KeyClass(Normalised(Adjusted(AreaFor(areaId).kind, hour, month)), SourceValue, k)
  {
    var area := AreaFor(areaId);
    var b := AdjustedShares(area.kind, hour, month);
    var normalised := Normalised(b);
    sources := SortDesc(normalised, SourceValue);
    SortDescSorted(normalised, SourceValue);
    forall k ensures KeyClass(sources, SourceValue, k) == KeyClass(normalised, SourceValue, k) {
      SortDescStable(normalised, SourceValue, k);
    }
  }

  /** The five names, each once, whatever the order. */
  lemma NormalisedNames(b: Shares)
    requires SharesTotal(b) > 0
    ensures var s := Normalised(b);
      multiset(seq(5, i requires 0 <= i < 5 => s[i].name)) ==
      multiset(["Vehicular", "Industrial", "Construction", "Stubble", "Other"])
  {
    var s := Normalised(b);
    assert seq(5, i requires 0 <= i < 5 => s[i].name) ==
      ["Vehicular", "Industrial", "Construction", "Stubble", "Other"];
  }

  /** Rounding five shares of 100 keeps their sum within 2 of 100, and every
      percentage of positive shares is at least 0 and at most 100. */
  lemma NormalisedSum(b: Shares)
    requires b.vehicular > 0 && b.industrial > 0 && b.construction > 0 && b.stubble > 0 && b.other > 0
    ensures var s := Normalised(b);
      98 <= s[0].value + s[1].value + s[2].value + s[3].value + s[4].value <= 102 &&
      forall i :: 0 <= i < 5 ==> 0 <= s[i].value <= 100
  {
    var t := SharesTotal(b);
    PercentsAddUp(b.vehicular, b.industrial, b.construction, b.stubble, b.other, t);
    PercentBounds(b.vehicular, t);
    PercentBounds(b.industrial, t);
    PercentBounds(b.construction, t);
    PercentBounds(b.stubble, t);
    PercentBounds(b.other, t);
  }

  lemma PercentsAddUp(v: int, i: int, c: int, s: int, o: int, total: int)
    requires total > 0 && v + i + c + s + o == total
    ensures PercentOf(v, total) + PercentOf(i, total) + PercentOf(c, total) +
            PercentOf(s, total) + PercentOf(o, total) == 100.0
  {
    var k := 100.0 / total as real;
    assert PercentOf(v, total) == v as real * k;
    assert PercentOf(i, total) == i as real * k;
    assert PercentOf(c, total) == c as real * k;
    assert PercentOf(s, total) == s as real * k;
    assert PercentOf(o, total) == o as real * k;
    assert (v + i + c + s + o) as real * k == 100.0;
  }

  lemma PercentBounds(part: int, total: int)
    requires 0 < part <= total
    ensures 0 <= JsRound(PercentOf(part, total)) <= 100
  {
    var p := PercentOf(part, total);
    assert part as real / total as real <= 1.0;
    assert 0.0 <= p <= 100.0;
    JsRoundMonotone(0.0, p);
    JsRoundMonotone(p, 100.0);
    JsRoundOfInt(0);
    JsRoundOfInt(100);
  }

  // ----- generateDenseNetwork -----

  datatype Sensor = Sensor(id: string, name: string, lat: real, lng: real, aqi: int,
                           level: Level, pollutants: Pollutants, isSynthetic: bool)

  const SensorCount: nat := 150
  /** getAllAreasData runs first and takes one draw per area. */
  const DrawsBefore: nat := 25

  function SensorDraw(rnd: nat -> real, i: nat, k: nat): real
    requires k < 3
  {
    rnd(DrawsBefore + 3 * i + k)
  }

  function SensorAt(rnd: nat -> real, i: nat): Sensor
    requires UnitDraws(rnd)
  {
    var lat := Uniform(28.35, 28.85, SensorDraw(rnd, i, 0));
    var lng := Uniform(76.90, 77.45, SensorDraw(rnd, i, 1));
    var aqi := JsRound(Uniform(180.0, 430.0, SensorDraw(rnd, i, 2)));
    Sensor("sensor-" + NatToString(i), "Sensor node " + NatToString(1000 + i), lat, lng, aqi,
           AirQualityLevel(aqi as real), PollutantsOf(aqi as real), true)
  }

  /** The sensor the loop builds from pass i's three draws is SensorAt(rnd, i). */
  lemma SensorFromDraws(rnd: nat -> real, i: nat, lat: real, lng: real, aqi: int)
    requires UnitDraws(rnd)
    requires lat == Uniform(28.35, 28.85, rnd(DrawsBefore + 3 * i))
    requires lng == Uniform(76.90, 77.45, rnd(DrawsBefore + 3 * i + 1))
    requires aqi == JsRound(Uniform(180.0, 430.0, rnd(DrawsBefore + 3 * i + 2)))
    ensures SensorAt(rnd, i) == Sensor("sensor-" + NatToString(i), "Sensor node " + NatToString(1000 + i),
                                       lat, lng, aqi, AirQualityLevel(aqi as real), PollutantsOf(aqi as real), true)
  {
  }

  /** The first n sensors, one per pass. */
  function SensorsUpTo(rnd: nat -> real, n: nat): (ps: seq<Sensor>)
    requires UnitDraws(rnd)
    ensures |ps| == n
  {
    if n == 0 then [] else SensorsUpTo(rnd, n - 1) + [SensorAt(rnd, n - 1)]
  }

  lemma {:induction false} SensorsUpToAt(rnd: nat -> real, n: nat)
    requires UnitDraws(rnd)
    ensures forall k :: 0 <= k < n ==> SensorsUpTo(rnd, n)[k] == SensorAt(rnd, k)
  {
    if n > 0 {
      SensorsUpToAt(rnd, n - 1);
      var prefix := SensorsUpTo(rnd, n - 1);
      forall k | 0 <= k < n - 1
        ensures SensorsUpTo(rnd, n)[k] == SensorAt(rnd, k)
      {
        assert SensorsUpTo(rnd, n)[k] == prefix[k];
      }
    }
  }

  /** generateDenseNetwork: the counted loop pushing one synthetic sensor per pass. */
  method DenseNetwork(rnd: nat -> real) returns (points: seq<Sensor>)
    requires UnitDraws(rnd)
    ensures |points| == SensorCount
    ensures forall i :: 0 <= i < |points| ==> points[i] == SensorAt(rnd, i)
  {
    points := [];
    for i := 0 to SensorCount
      invariant points == SensorsUpTo(rnd, i)
    {
      var lat := Uniform(28.35, 28.85, rnd(DrawsBefore + 3 * i));
      var lng := Uniform(76.90, 77.45, rnd(DrawsBefore + 3 * i + 1));
      var baseAqi := Uniform(180.0, 430.0, rnd(DrawsBefore + 3 * i + 2));
      var aqi := JsRound(baseAqi);
      var sensor := Sensor("sensor-" + NatToString(i), "Sensor node " + NatToString(1000 + i),
                           lat, lng, aqi, AirQualityLevel(aqi as real), PollutantsOf(aqi as real), true);
      SensorFromDraws(rnd, i, lat, lng, aqi);
      points := points + [sensor];
    }
    SensorsUpToAt(rnd, SensorCount);
  }

  /** Every sensor lies in the NCR box and reads an AQI in [180, 430], in
      the Moderate band or worse. */
  lemma SensorRanges(rnd: nat -> real, i: nat)
    requires UnitDraws(rnd)
    ensures var s := SensorAt(rnd, i);
      28.35 <= s.lat < 28.85 && 76.90 <= s.lng < 77.45 && 180 <= s.aqi <= 430 &&
      LabelRank(s.level.band) >= 2
  {
    var x := Uniform(180.0, 430.0, SensorDraw(rnd, i, 2));
    JsRoundMonotone(180.0, x);
    JsRoundMonotone(x, 430.0);
    JsRoundOfInt(180);
    JsRoundOfInt(430);
    LevelRank(SensorAt(rnd, i).aqi as real);
  }

  /** The sensor ids `sensor-<i>` are pairwise distinct. */
  lemma SensorIdsDistinct(rnd: nat -> real, i: nat, j: nat)
    requires UnitDraws(rnd)
    requires i != j
    ensures SensorAt(rnd, i).id != SensorAt(rnd, j).id
  {
    var a := SensorAt(rnd, i).id;
    var b := SensorAt(rnd, j).id;
    if a == b {
      assert a[7..] == NatToString(i);
      assert b[7..] == NatToString(j);
      NatToStringInjective(i, j);
    }
  }
}
