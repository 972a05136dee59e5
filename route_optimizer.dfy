/** The safe-route recommender (src/utils/routeOptimizer.js): three fixed
    routes scored by exposure (average AQI times minutes), rated, and
    listed from least to most exposure, plus the one-line insight
    comparing the first two. */
module RouteOptimizer {
  import opened Common
  import opened Ranking

  datatype Route = Route(id: nat, name: string, distance: real, duration: int, avgAqi: int,
                         note: string, areas: seq<string>)

  /** The three candidate routes, in their declared order. */
  const Routes: seq<Route> := [
    Route(1, "Via Ring Road", 22.4, 35, 280, RingRoadNote, ["RK Puram", "CP", "Dwarka"]),
    Route(2, "Via Mathura Road", 18.2, 28, 340, MathuraRoadNote, ["Anand Vihar", "Noida", "Ghaziabad"]),
    Route(3, "Via DND Flyway", 20.1, 25, 295, FlywayNote, ["Noida", "CP", "South Delhi"])
  ]

  const RingRoadNote := "Stands as the longest but avoids high-density industrial clusters."
  const MathuraRoadNote := "Fastest route but passes through Anand Vihar (Severe Zone)."
  const FlywayNote := "Best overall balance of air quality and travel time."

  datatype RatedRoute = RatedRoute(route: Route, exposureScore: int, rating: string)

  /** Exposure: AQI times minutes over ten, rounded half up. */
  function ExposureScore(r: Route): (e: int)
    ensures (r.avgAqi * r.duration) as real / 10.0 - 0.5 < e as real <= (r.avgAqi * r.duration) as real / 10.0 + 0.5
    ensures 0 <= r.avgAqi * r.duration ==> 0 <= e
  {
    JsRound((r.avgAqi * r.duration) as real / 10.0)
  }

  /** Below 600 is Safe, below 900 Moderate, anything else High Risk. */
  function RatingOf(score: int): (rating: string)
    ensures rating == "Safe" <==> score < 600
    ensures rating == "High Risk" <==> 900 <= score
  {
    if score < 600 then "Safe" else if score < 900 then "Moderate" else "High Risk"
  }

  function Rated(r: Route): RatedRoute {
    RatedRoute(r, ExposureScore(r), RatingOf(ExposureScore(r)))
  }

  function RatedAll(rs: seq<Route>): (out: seq<RatedRoute>)
    ensures |out| == |rs|
    ensures forall i :: 0 <= i < |rs| ==> out[i] == Rated(rs[i])
  {
    if rs == [] then [] else [Rated(rs[0])] + RatedAll(rs[1..])
  }

  function ScoreKey(r: RatedRoute): real {
    r.exposureScore as real
  }

  /** getAlternativeRoutes: the rated routes, stably sorted by exposure.
      The start and end points are not consulted. */
  function AlternativeRoutes(start: string, end: string): (out: seq<RatedRoute>)
    ensures |out| == |Routes|
    ensures multiset(out) == multiset(RatedAll(Routes))
    ensures forall i, j :: 0 <= i < j < |out| ==> out[i].exposureScore <= out[j].exposureScore
  {
    SortAscSorted(RatedAll(Routes), ScoreKey);
    SortAsc(RatedAll(Routes), ScoreKey)
  }

  /** Every listed route is one of the three, carrying its own score and
      rating, whatever the endpoints. */
  lemma RoutesAreTheFixedThree(start: string, end: string, i: nat)
    requires i < |AlternativeRoutes(start, end)|
    ensures var r := AlternativeRoutes(start, end)[i];
      r.route in Routes && r == Rated(r.route)
  {
    var out := AlternativeRoutes(start, end);
    assert out[i] in multiset(RatedAll(Routes));
    var k :| 0 <= k < |Routes| && RatedAll(Routes)[k] == out[i];
  }

  /** The answer is the same for any endpoints. */
  lemma EndpointsIgnored(start: string, end: string, start2: string, end2: string)
    ensures AlternativeRoutes(start, end) == AlternativeRoutes(start2, end2)
  {
  }

  /** With the fixed data: DND Flyway (738, Moderate) comes first, then
      Mathura Road (952) and Ring Road (980), both High Risk. */
  lemma FixedRanking(start: string, end: string)
    ensures var out := AlternativeRoutes(start, end);
      out[0].route.id == 3 && out[0].exposureScore == 738 && out[0].rating == "Moderate" &&
      out[1].route.id == 2 && out[1].exposureScore == 952 && out[1].rating == "High Risk" &&
      out[2].route.id == 1 && out[2].exposureScore == 980 && out[2].rating == "High Risk"
  {
    var rated := RatedAll(Routes);
    ScoreOf(Routes[0], 980);
    ScoreOf(Routes[1], 952);
    ScoreOf(Routes[2], 738);
    assert rated == [rated[0], rated[1], rated[2]];
    SortedOfThree(AlternativeRoutes(start, end), rated[0], rated[1], rated[2]);
  }

  /** A route whose AQI-minutes lie in [10n - 5, 10n + 5) scores n. */
  lemma ScoreOf(r: Route, n: int)
    requires 10 * n - 5 <= r.avgAqi * r.duration < 10 * n + 5
    ensures ExposureScore(r) == n
  {
    var m := r.avgAqi * r.duration;
    assert n as real <= m as real / 10.0 + 0.5 < n as real + 1.0;
  }

  /** A sequence holding three routes of strictly decreasing exposure,
      listed by non-decreasing exposure, lists them in reverse. */
  lemma SortedOfThree(out: seq<RatedRoute>, a: RatedRoute, b: RatedRoute, c: RatedRoute)
    requires multiset(out) == multiset([a, b, c])
    requires forall i, j :: 0 <= i < j < |out| ==> out[i].exposureScore <= out[j].exposureScore
    requires a.exposureScore > b.exposureScore > c.exposureScore
    ensures out == [c, b, a]
  {
    assert |out| == 3 by {
      assert |multiset(out)| == |out|;
    }
    assert forall i :: 0 <= i < 3 ==> out[i] in multiset([a, b, c]) by {
      forall i | 0 <= i < 3 ensures out[i] in multiset([a, b, c]) {
        assert out[i] in multiset(out);
      }
    }
    assert a in multiset(out) && b in multiset(out) && c in multiset(out);
    assert a in out && b in out && c in out;
  }

  // ----- getRouteInsight -----

  /** The percentage in the insight, or None where JavaScript's division
      by a zero second score yields NaN or an infinity. */
  function InsightPercent(routes: seq<RatedRoute>): (p: Option<int>)
    requires |routes| >= 2
    ensures p.None? <==> routes[1].exposureScore == 0
  {
    var s0 := routes[0].exposureScore as real;
    var s1 := routes[1].exposureScore as real;
    if s1 == 0.0 then None else Some(JsRound((s1 - s0) / s1 * 100.0))
  }

  const InsightSuffix := "% lower pollution exposure than the fastest alternative."

  /** getRouteInsight: names the first route and the rounded relative gap
      to the second; a zero second score shows JavaScript's NaN or
      infinity in its place. */
  function RouteInsight(routes: seq<RatedRoute>): (text: string)
    requires |routes| >= 2
    ensures var prefix := "\U{2B50} Recommended: " + routes[0].route.name + " offers a ";
      |prefix| <= |text| && text[..|prefix|] == prefix
    ensures var prefix := "\U{2B50} Recommended: " + routes[0].route.name + " offers a ";
      InsightPercent(routes).Some? ==> text == prefix + IntToString(InsightPercent(routes).value) + InsightSuffix
    ensures var prefix := "\U{2B50} Recommended: " + routes[0].route.name + " offers a ";
      routes[1].exposureScore == 0 ==>
        text == prefix + (if routes[0].exposureScore == 0 then "NaN"
                          else if routes[0].exposureScore > 0 then "-Infinity"
                          else "Infinity") + InsightSuffix
  {
    var p := InsightPercent(routes);
    var shown :=
      if p.Some? then IntToString(p.value)
      else if routes[0].exposureScore == 0 then "NaN"
      else if routes[0].exposureScore > 0 then "-Infinity"
      else "Infinity";
    var prefix := "\U{2B50} Recommended: " + routes[0].route.name + " offers a ";
    var text := prefix + shown + InsightSuffix;
    assert text[..|prefix|] == prefix;
    text
  }

  /** When the first route's exposure is at most the second's and the
      second is positive, the quoted gap is not negative; it is at most
      100 when the first exposure is not negative either. */
  lemma InsightPercentBounds(routes: seq<RatedRoute>)
    requires |routes| >= 2
    requires routes[0].exposureScore <= routes[1].exposureScore && routes[1].exposureScore > 0
    ensures InsightPercent(routes).Some?
    ensures 0 <= InsightPercent(routes).value
    ensures 0 <= routes[0].exposureScore ==> InsightPercent(routes).value <= 100
  {
    var s0 := routes[0].exposureScore as real;
    var s1 := routes[1].exposureScore as real;
    var q := (s1 - s0) / s1;
    assert 0.0 <= q;
    MulMonotone(0.0, q, 100.0);
    JsRoundMonotone(0.0, q * 100.0);
    JsRoundOfInt(0);
    if 0.0 <= s0 {
      QuotientAtMostOne(s1 - s0, s1);
      MulMonotone(q, 1.0, 100.0);
      JsRoundMonotone(q * 100.0, 100.0);
      JsRoundOfInt(100);
    }
  }

  lemma QuotientAtMostOne(x: real, y: real)
    requires x <= y && y > 0.0
    ensures x / y <= 1.0
  {
    assert x / y * y == x;
  }

  /** For the routes getAlternativeRoutes lists, the insight quotes 22%. */
  lemma FixedInsight(start: string, end: string)
    ensures InsightPercent(AlternativeRoutes(start, end)) == Some(22)
  {
    FixedRanking(start, end);
    var q := (952.0 - 738.0) / 952.0 * 100.0;
    assert 21.5 <= q < 22.5;
  }
}
