/** The mock AQI forecaster (src/utils/forecastModel.js): hourly
    predictions with a widening confidence band, and the two-line insight
    comparing the first and last predictions.

    getCurrentAQI for the hour i hours ahead is the parameter `current(i)`
    (it reads the clock and a random draw of its own), and the trend's
    Math.random() draw for that hour is `rnd(i)`. */
module ForecastModel {
  import opened Common

  /** One hourly prediction; the locale time text and ISO timestamp are
      not modelled, only the offset in hours. */
  datatype Prediction = Prediction(hoursAhead: nat, aqi: int, confidenceLow: int, confidenceHigh: int)

  /** The predicted value before rounding: the AQI of that hour plus the
      trend i * (2r - 0.8). */
  function Predicted(current: nat -> int, rnd: nat -> real, i: nat): real {
    current(i) as real + i as real * (rnd(i) * 2.0 - 0.8)
  }

  /** The entry for the hour i ahead: the rounded value, and the rounded
      value less and plus the variance 1.5 i. */
  function PredictionAt(current: nat -> int, rnd: nat -> real, i: nat): Prediction {
    var p := Predicted(current, rnd, i);
    var variance := i as real * 1.5;
    Prediction(i, JsRound(p), JsRound(p - variance), JsRound(p + variance))
  }

  /** predictAQI: one prediction per hour for 1 .. hours (24 by default). */
  method PredictAqi(current: nat -> int, rnd: nat -> real, hours: Option<int>)
    returns (predictions: seq<Prediction>)
    ensures var h := if hours.Some? then hours.value else 24;
      |predictions| == (if h < 0 then 0 else h)
    ensures forall k :: 0 <= k < |predictions| ==> predictions[k] == PredictionAt(current, rnd, k + 1)
  {
    var h := if hours.Some? then hours.value else 24;
    predictions := [];
    var i := 1;
    while i <= h
      invariant 1 <= i && (h < 1 ==> i == 1) && (h >= 1 ==> i <= h + 1)
      invariant |predictions| == i - 1
      invariant forall k :: 0 <= k < |predictions| ==> predictions[k] == PredictionAt(current, rnd, k + 1)
      decreases h - i
    {
      var predictedAqi := current(i) as real;
      var trend := i as real * (rnd(i) * 2.0 - 0.8);
      predictedAqi := predictedAqi + trend;
      var variance := i as real * 1.5;
      predictions := predictions + [Prediction(i, JsRound(predictedAqi), JsRound(predictedAqi - variance),
                                               JsRound(predictedAqi + variance))];
      i := i + 1;
    }
  }

  /** Every prediction lies inside its own confidence band, and the band
      is centred on it to within rounding: its half-width is 1.5 per hour
      ahead, give or take 1. */
  lemma BandContainsPrediction(current: nat -> int, rnd: nat -> real, i: nat)
    ensures var e := PredictionAt(current, rnd, i);
      e.confidenceLow <= e.aqi <= e.confidenceHigh &&
      (i as real * 1.5 - 1.0 < (e.aqi - e.confidenceLow) as real < i as real * 1.5 + 1.0) &&
      (i as real * 1.5 - 1.0 < (e.confidenceHigh - e.aqi) as real < i as real * 1.5 + 1.0)
  {
    var p := Predicted(current, rnd, i);
    var variance := i as real * 1.5;
    JsRoundMonotone(p - variance, p);
    JsRoundMonotone(p, p + variance);
  }

  /** With draws in [0, 1) the trend moves the hour's AQI by at least
      -0.8 i and less than 1.2 i. */
  lemma TrendBounds(current: nat -> int, rnd: nat -> real, i: nat)
    requires UnitDraws(rnd)
    ensures current(i) as real - 0.8 * i as real <= Predicted(current, rnd, i)
    ensures i > 0 ==> Predicted(current, rnd, i) < current(i) as real + 1.2 * i as real
  {
    var r := rnd(i);
    MulMonotone(-0.8, r * 2.0 - 0.8, i as real);
    if i > 0 {
      assert (r * 2.0 - 0.8) * i as real < 1.2 * i as real;
    }
  }

  // ----- generateForecastInsights -----

  datatype Insight =
    | TrendInsight(kind: string, trend: string, severity: string, text: string)
    | InfoInsight(text: string)

  const AtmosphericInsight :=
    InfoInsight("Thermal inversion layers are currently hindering vertical dispersion in the morning hours.")

  datatype Direction = Upward | Downward | Stable

  /** How diff = (last - current) / current * 100 compares with +-10. A
      zero first AQI makes diff an infinity of the sign of last, or NaN
      (which fails both tests) when last is zero too. */
  function DirectionOf(current: int, last: int): (d: Direction)
    ensures current != 0 ==>
      var diff := (last - current) as real / current as real * 100.0;
      (d == Upward <==> diff > 10.0) && (d == Downward <==> diff < -10.0)
    ensures current == 0 ==>
      (d == Upward <==> last > 0) && (d == Downward <==> last < 0)
  {
    if current == 0 then
      (if last > 0 then Upward else if last < 0 then Downward else Stable)
    else
      var diff := (last - current) as real / current as real * 100.0;
      if diff > 10.0 then Upward else if diff < -10.0 then Downward else Stable
  }

  /** `Math.abs(Math.round(diff))` as text; "Infinity" for a zero first AQI. */
  function PercentText(current: int, last: int): string {
    if current == 0 then "Infinity"
    else
      var r := JsRound((last - current) as real / current as real * 100.0);
      NatToString(if r < 0 then -r else r)
  }

  /** generateForecastInsights: a trend insight chosen by diff, then the
      fixed atmospheric note. */
  function ForecastInsights(predictions: seq<Prediction>): (insights: seq<Insight>)
    requires |predictions| >= 1
    ensures |insights| == 2 && insights[1] == AtmosphericInsight
    ensures var d := DirectionOf(predictions[0].aqi, predictions[|predictions| - 1].aqi);
      insights[0].TrendInsight? &&
      (d == Upward <==> insights[0].trend == "Upward" && insights[0].severity == "High" &&
                        insights[0].kind == "warning") &&
      (d == Downward <==> insights[0].trend == "Downward" && insights[0].severity == "Low") &&
      (d == Stable <==> insights[0].trend == "Stable" && insights[0].severity == "Medium")
    ensures var current := predictions[0].aqi;
      var last := predictions[|predictions| - 1].aqi;
      var d := DirectionOf(current, last);
      (d == Upward ==> insights[0].text == RiseLead + PercentText(current, last) + RiseTail) &&
      (d == Downward ==> insights[0].text == ImproveLead + PercentText(current, last) + ImproveTail) &&
      (d == Stable ==> insights[0].text == StableText)
  {
    var current := predictions[0].aqi;
    var last := predictions[|predictions| - 1].aqi;
    var pct := PercentText(current, last);
    var first :=
      match DirectionOf(current, last)
      case Upward => TrendInsight("warning", "Upward", "High", RiseLead + pct + RiseTail)
      case Downward => TrendInsight("success", "Downward", "Low", ImproveLead + pct + ImproveTail)
      case Stable => TrendInsight("success", "Stable", "Medium", StableText);
    [first, AtmosphericInsight]
  }

  // The fixed parts of the trend texts.
  const RiseLead := "AQI expected to rise by "
  const RiseTail := "% in next 24-72 hours due to predicted low wind speeds."
  const ImproveLead := "AQI projected to improve by "
  const ImproveTail := "% over the next 48 hours due to expected rainfall."
  const StableText := "Air Quality is expected to remain stable with minor fluctuations during rush hours."

  /** A forecast that ends where it starts (at a non-zero AQI) is Stable,
      and a single prediction is always compared with itself. */
  lemma FlatForecastIsStable(predictions: seq<Prediction>)
    requires |predictions| >= 1
    requires predictions[0].aqi == predictions[|predictions| - 1].aqi
    ensures ForecastInsights(predictions)[0].trend == "Stable"
  {
    var c := predictions[0].aqi;
    if c != 0 {
      assert (c - c) as real / c as real * 100.0 == 0.0;
    }
  }

  /** Doubling the AQI from the first to the last hour is an Upward
      warning quoting 100%. */
  lemma DoublingIsUpward(predictions: seq<Prediction>)
    requires |predictions| >= 1 && predictions[0].aqi > 0
    requires predictions[|predictions| - 1].aqi == 2 * predictions[0].aqi
    ensures ForecastInsights(predictions)[0].trend == "Upward"
    ensures PercentText(predictions[0].aqi, predictions[|predictions| - 1].aqi) == "100"
  {
    var c := predictions[0].aqi;
    assert (2 * c - c) as real / c as real * 100.0 == 100.0;
    JsRoundOfInt(100);
  }
}
