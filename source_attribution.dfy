/** The mock source-attribution classifier (src/utils/sourceAttribution.js):
    five raw shares adjusted for the stubble season, rush hour and
    industrial areas, normalised to rounded percentages and listed from
    largest to smallest; a confidence score; and the two-source
    explanation.

    The clock is the parameters hour (0-23), month (0-11) and day (0 is
    Sunday, 6 Saturday); the one Math.random() draw is r. */
module SourceAttribution {
  import opened Common
  import opened Ranking

  datatype Attribution = Attribution(source: string, percentage: int, color: string)

  /** The five raw shares before normalisation; they are reals because
      the stubble share is drawn and the spike is split in thirds and
      quarters. */
  datatype Raw = Raw(vehicular: real, industrial: real, construction: real, stubble: real, others: real)

  function Total(raw: Raw): real {
    raw.vehicular + raw.industrial + raw.construction + raw.stubble + raw.others
  }

  /** October and November (JavaScript months 9 and 10). */
  predicate StubbleSeason(month: int) {
    month == 9 || month == 10
  }

  /** Hours 8-10 and 17-21. */
  predicate RushHour(hour: int) {
    (8 <= hour <= 10) || (17 <= hour <= 21)
  }

  predicate Weekend(day: int) {
    day == 0 || day == 6
  }

  /** The rush-hour vehicular spike: 10 at weekends, 25 on weekdays. */
  function Spike(day: int): real {
    if Weekend(day) then 10.0 else 25.0
  }

  predicate IndustrialArea(areaId: string) {
    areaId == "faridabad" || areaId == "ghaziabad" || areaId == "anand-vihar"
  }

  /** The raw shares as the sum of each adjustment's deltas. Every
      adjustment except the stubble draw moves shares between sources
      without changing the total, apart from the spike, which adds a sixth
      of itself (it adds s and removes s/3 + s/4 + s/4). */
  function AdjustedRaw(areaId: string, hour: int, month: int, day: int, r: real): (raw: Raw)
    ensures Total(raw) == 100.0 + (if StubbleSeason(month) then 10.0 * r else 0.0)
                                + (if RushHour(hour) then Spike(day) / 6.0 else 0.0)
  {
    var s := if StubbleSeason(month) then 1.0 else 0.0;
    var k := if RushHour(hour) then Spike(day) else 0.0;
    var b := if IndustrialArea(areaId) then 1.0 else 0.0;
    Raw(40.0 - 10.0 * s + k - 5.0 * b,
        25.0 - 10.0 * s - k / 3.0 + 15.0 * b,
        15.0 - 5.0 * s - k / 4.0 - 5.0 * b,
        if StubbleSeason(month) then 35.0 + r * 10.0 else 5.0,
        15.0 - 5.0 * s - k / 4.0 - 5.0 * b)
  }

  /** The five entries, each the raw share times 100 / total, rounded, in
      the order the array literal lists them. */
  function Entries(raw: Raw): (e: seq<Attribution>)
    requires Total(raw) != 0.0
    ensures |e| == 5
    ensures forall i :: 0 <= i < 5 ==> e[i].percentage as real - 0.5 <= Share(raw, i) * (100.0 / Total(raw))
                                        < e[i].percentage as real + 0.5
  {
    var scale := 100.0 / Total(raw);
    [Attribution("Vehicular Emissions", JsRound(raw.vehicular * scale), "#3B82F6"),
     Attribution("Industrial Emissions", JsRound(raw.industrial * scale), "#8B5CF6"),
     Attribution("Stubble Burning", JsRound(raw.stubble * scale), "#EF4444"),
     Attribution("Construction Dust", JsRound(raw.construction * scale), "#F59E0B"),
     Attribution("Others", JsRound(raw.others * scale), "#6B7280")]
  }

  /** The raw share behind the i-th entry of the array literal. */
  function Share(raw: Raw, i: nat): real
    requires i < 5
  {
    match i
    case 0 => raw.vehicular
    case 1 => raw.industrial
    case 2 => raw.stubble
    case 3 => raw.construction
    case _ => raw.others
  }

  function Percentage(a: Attribution): real {
    a.percentage as real
  }

  /** The five local shares of calculateSourceAttribution, adjusted one
      condition at a time: the stubble season, the rush-hour spike, and
      the industrial bias of three areas. */
  method AdjustShares(areaId: string, hour: int, month: int, day: int, r: real) returns (raw: Raw)
    ensures raw == AdjustedRaw(areaId, hour, month, day, r)
  {
    var vehicular := 40.0;
    var industrial := 25.0;
    var construction := 15.0;
    var stubble := 5.0;
    var others := 15.0;

    if month == 9 || month == 10 {
      stubble := 35.0 + r * 10.0;
      vehicular := vehicular - 10.0;
      industrial := industrial - 10.0;
      construction := construction - 5.0;
      others := others - 5.0;
    }

    if (8 <= hour <= 10) || (17 <= hour <= 21) {
      var spike := if day == 0 || day == 6 then 10.0 else 25.0;
      vehicular := vehicular + spike;
      industrial := industrial - spike / 3.0;
      construction := construction - spike / 4.0;
      others := others - spike / 4.0;
    }

    if areaId == "faridabad" || areaId == "ghaziabad" || areaId == "anand-vihar" {
      industrial := industrial + 15.0;
      vehicular := vehicular - 5.0;
      construction := construction - 5.0;
      others := others - 5.0;
    }

    raw := Raw(vehicular, industrial, construction, stubble, others);
  }

  /** calculateSourceAttribution: the adjusted shares, normalised, and
      sorted by percentage, largest first; the sort is stable, so equal
      percentages keep the literal's order. */
  method CalculateSourceAttribution(areaId: string, hour: int, month: int, day: int, r: real)
    returns (attribution: seq<Attribution>)
    requires 0.0 <= r < 1.0
    ensures |attribution| == 5
    ensures SortedDesc(attribution, Percentage)
    ensures multiset(attribution) == multiset(Entries(AdjustedRaw(areaId, hour, month, day, r)))
    ensures forall k :: KeyClass(attribution, Percentage, k) ==
                        KeyClass(Entries(AdjustedRaw(areaId, hour, month, day, r)), Percentage, k)
  {
    var raw := AdjustShares(areaId, hour, month, day, r);
    var entries := Entries(raw);
    attribution := SortDesc(entries, Percentage);
    SortDescSorted(entries, Percentage);
    forall k ensures KeyClass(attribution, Percentage, k) == KeyClass(entries, Percentage, k) {
      SortDescStable(entries, Percentage, k);
    }
  }

  /** The raw stubble share is 5 outside October and November and a draw
      in [35, 45) within them. */
  lemma StubbleRange(areaId: string, hour: int, month: int, day: int, r: real)
    requires 0.0 <= r < 1.0
    ensures var s := AdjustedRaw(areaId, hour, month, day, r).stubble;
      (!StubbleSeason(month) ==> s == 5.0) && (StubbleSeason(month) ==> 35.0 <= s < 45.0)
  {
  }

  /** Rush hour moves Spike(day) (10 at weekends, 25 on weekdays) into the
      vehicular share, taking a third of it from industry and a quarter each
      from construction and others; every other share is as off-peak. */
  lemma RushHourSpike(areaId: string, rush: int, calm: int, month: int, day: int, r: real)
    requires RushHour(rush) && !RushHour(calm)
    ensures var a := AdjustedRaw(areaId, rush, month, day, r);
            var b := AdjustedRaw(areaId, calm, month, day, r);
      a.vehicular == b.vehicular + Spike(day) &&
      a.industrial == b.industrial - Spike(day) / 3.0 &&
      a.construction == b.construction - Spike(day) / 4.0 &&
      a.others == b.others - Spike(day) / 4.0 &&
      a.stubble == b.stubble
  {
  }

  /** The five rounded percentages sum to between 98 and 100 + 2, since
      the unrounded ones sum to exactly 100 and each rounding moves a value
      by at most a half. */
  lemma PercentagesSum(raw: Raw)
    requires Total(raw) != 0.0
    ensures var e := Entries(raw);
      98 <= e[0].percentage + e[1].percentage + e[2].percentage + e[3].percentage + e[4].percentage <= 102
  {
    var t := Total(raw);
    var scale := 100.0 / t;
    assert Share(raw, 0) * scale + Share(raw, 1) * scale + Share(raw, 2) * scale +
           Share(raw, 3) * scale + Share(raw, 4) * scale == 100.0 by {
      assert Share(raw, 0) * scale + Share(raw, 1) * scale + Share(raw, 2) * scale +
             Share(raw, 3) * scale + Share(raw, 4) * scale == t * scale;
    }
  }

  /** The shares are not kept non-negative: on a weekday at 9 in October,
      in Faridabad, construction dust is reported at -1%. */
  lemma ConstructionCanGoNegative()
    ensures Entries(AdjustedRaw("faridabad", 9, 9, 1, 0.0))[3].percentage == -1
  {
    var raw := AdjustedRaw("faridabad", 9, 9, 1, 0.0);
    assert raw.construction == -1.25;
    assert Total(raw) == 100.0 + 25.0 / 6.0;
    var p := raw.construction * (100.0 / Total(raw));
    assert -1.21 < p < -1.19;
  }

  // ----- getConfidenceScore -----

  /** getConfidenceScore: 75 plus a rounded draw of [0, 20). */
  function ConfidenceScore(r: real): (score: int)
    requires 0.0 <= r < 1.0
    ensures 75 <= score <= 95
  {
    JsRoundMonotone(0.0, r * 20.0);
    JsRoundMonotone(r * 20.0, 20.0);
    JsRoundOfInt(0);
    JsRoundOfInt(20);
    75 + JsRound(r * 20.0)
  }

  // ----- generateSourceExplanation -----

  const VehicularDriver: string := "High traffic density and low wind speeds (avg 2.1 km/h) are causing localized accumulation of PM2.5. "
  const StubbleDriver: string := "Regional crop residue burning detected across Punjab/Haryana, contributing significantly to the current spike. "
  const IndustrialDriver: string := "Proximity to heavy industrial clusters and stagnant air conditions are primary drivers of pollution levels. "

  /** The sentence on the leading source's driver; empty for construction
      dust and others. */
  function Driver(source: string): (d: string)
    ensures d == [] <==> source != "Vehicular Emissions" && source != "Stubble Burning" &&
                         source != "Industrial Emissions"
  {
    if source == "Vehicular Emissions" then VehicularDriver
    else if source == "Stubble Burning" then StubbleDriver
    else if source == "Industrial Emissions" then IndustrialDriver
    else ""
  }

  /** A source named with its percentage, as in "Others (12%)". */
  function Mention(a: Attribution): string {
    a.source + " (" + IntToString(a.percentage) + "%)"
  }

  function Opening(top: Attribution, areaName: string): string {
    top.source + (" dominate (" + IntToString(top.percentage) + "%) in " + areaName + ". ")
  }

  function Closing(second: Attribution): string {
    "Secondary contribution from " + Mention(second) + " observed."
  }

  /** generateSourceExplanation: the first entry and its percentage, the
      driver sentence for it, then the second entry. Fewer than two entries
      make the source throw, so two are required. */
  method SourceExplanation(attribution: seq<Attribution>, areaName: string) returns (explanation: string)
    requires |attribution| >= 2
    ensures explanation == Opening(attribution[0], areaName) + Driver(attribution[0].source) + Closing(attribution[1])
  {
    var top := attribution[0];
    var second := attribution[1];
    explanation := top.source + (" dominate (" + IntToString(top.percentage) + "%) in " + areaName + ". ");
    if top.source == "Vehicular Emissions" {
      explanation := explanation + VehicularDriver;
    } else if top.source == "Stubble Burning" {
      explanation := explanation + StubbleDriver;
    } else if top.source == "Industrial Emissions" {
      explanation := explanation + IndustrialDriver;
    } else {
      assert explanation == explanation + Driver(top.source);
    }
    explanation := explanation + ("Secondary contribution from " + (second.source + " (" +
                   IntToString(second.percentage) + "%)") + " observed.");
  }

  /** The explanation opens with the first entry's name and closes by
      naming the second with its percentage, so for a sorted attribution it
      names the largest source first and the runner-up last. */
  lemma ExplanationNamesTopThenSecond(attribution: seq<Attribution>, areaName: string)
    requires |attribution| >= 2
    ensures var e := Opening(attribution[0], areaName) + Driver(attribution[0].source) + Closing(attribution[1]);
      var tail := Mention(attribution[1]) + " observed.";
      |attribution[0].source| + |tail| <= |e| &&
      e[..|attribution[0].source|] == attribution[0].source &&
      e[|e| - |tail|..] == tail
  {
    var top := attribution[0].source;
    var x := " dominate (" + IntToString(attribution[0].percentage) + "%) in " + areaName + ". ";
    var d := Driver(attribution[0].source);
    var tail := Mention(attribution[1]) + " observed.";
    var mid := x + d + "Secondary contribution from ";
    var c := "Secondary contribution from ";
    assert Opening(attribution[0], areaName) == top + x;
    assert Closing(attribution[1]) == c + tail;
    Regroup(top, x, d, c, tail);
    Framed(top, mid, tail);
  }

  lemma Regroup(a: string, b: string, c: string, d: string, e: string)
    ensures (a + b) + c + (d + e) == a + (b + c + d) + e
  {
  }

  lemma Framed(a: string, m: string, t: string)
    ensures (a + m + t)[..|a|] == a && (a + m + t)[|a + m + t| - |t|..] == t
  {
  }

  /** In the list calculateSourceAttribution returns, the entry the
      explanation leads with has the largest percentage, and the second
      the largest of the rest. */
  lemma ExplanationLeadsWithLargest(attribution: seq<Attribution>)
    requires |attribution| == 5 && SortedDesc(attribution, Percentage)
    ensures forall i :: 0 <= i < 5 ==> attribution[i].percentage <= attribution[0].percentage
    ensures forall i :: 1 <= i < 5 ==> attribution[i].percentage <= attribution[1].percentage
  {
    forall i | 1 <= i < 5
      ensures attribution[i].percentage <= attribution[0].percentage
      ensures 1 < i ==> attribution[i].percentage <= attribution[1].percentage
    {
      assert Percentage(attribution[0]) >= Percentage(attribution[i]);
      if 1 < i {
        assert Percentage(attribution[1]) >= Percentage(attribution[i]);
      }
    }
  }
}
