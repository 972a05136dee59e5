/** The hotspot simulator of the batch pipeline (ml/fire_engine.py): a
    random batch of detections inside the Punjab/Haryana burning belt, and a
    crude smoke forecast that weighs only hotspots north-west of Delhi. The
    random draws and the clock are parameters: rnd(k) is the k-th call of
    random.random(), each in [0, 1). */
module FireEngine {
  import opened Common

  /** One simulated detection. */
  datatype Detection = Detection(latitude: real, longitude: real, brightness: real, frp: real,
                                 acquisitionTime: string, confidence: string, satellite: string)

  const LatMin: real := 29.5
  const LatMax: real := 31.5
  const LonMin: real := 74.0
  const LonMax: real := 76.5

  /** random.randint(40, 60): the batch size, from draw 0. */
  function FireCount(rnd: nat -> real): (n: nat)
    requires UnitDraws(rnd)
    ensures 40 <= n <= 60
  {
    MulMonotone(0.0, rnd(0), 21.0);
    MulMonotone(rnd(0), 1.0, 21.0);
    40 + (rnd(0) * 21.0).Floor
  }

  /** Detection i takes draws 1+5i .. 5+5i: latitude, longitude, frp, the
      confidence choice, then brightness (the order of the calls). */
  function Draw(rnd: nat -> real, i: nat, k: nat): real
    requires k < 5
  {
    rnd(1 + 5 * i + k)
  }

  function SimulatedDetection(rnd: nat -> real, i: nat, now: string): Detection
    requires UnitDraws(rnd)
  {
    var lat := Uniform(LatMin, LatMax, Draw(rnd, i, 0));
    var lon := Uniform(LonMin, LonMax, Draw(rnd, i, 1));
    var frp := Uniform(10.5, 150.0, Draw(rnd, i, 2));
    var confidence := if Draw(rnd, i, 3) < 0.5 then "nominal" else "high";
    var brightness := Uniform(300.0, 380.0, Draw(rnd, i, 4));
    Detection(PyRound(lat, 4), PyRound(lon, 4), PyRound(brightness, 1), PyRound(frp, 1),
              now, confidence, "NASA-VIIRS")
  }

  /** The ranges every simulated detection keeps: coordinates inside the
      belt (after rounding to four places), frp in [10.5, 150.0], brightness
      in [300, 380] (after rounding to one place), and one of two labels. */
  ghost predicate InBelt(d: Detection) {
    LatMin <= d.latitude <= LatMax && LonMin <= d.longitude <= LonMax &&
    10.5 <= d.frp <= 150.0 && 300.0 <= d.brightness <= 380.0 &&
    (d.confidence == "nominal" || d.confidence == "high") &&
    d.satellite == "NASA-VIIRS"
  }

  lemma SimulatedDetectionInBelt(rnd: nat -> real, i: nat, now: string)
    requires UnitDraws(rnd)
    ensures InBelt(SimulatedDetection(rnd, i, now))
  {
    assert Scale(4) == 10000.0 && Scale(1) == 10.0;
    RoundedDrawWithin(LatMin, LatMax, 4, 295000, 315000, Draw(rnd, i, 0));
    RoundedDrawWithin(LonMin, LonMax, 4, 740000, 765000, Draw(rnd, i, 1));
    RoundedDrawWithin(10.5, 150.0, 1, 105, 1500, Draw(rnd, i, 2));
    RoundedDrawWithin(300.0, 380.0, 1, 3000, 3800, Draw(rnd, i, 4));
  }

  /** A uniform draw between two multiples of 10^-places stays between
      them once rounded to that many places. */
  lemma RoundedDrawWithin(lo: real, hi: real, places: nat, loN: int, hiN: int, r: real)
    requires lo == loN as real / Scale(places) && hi == hiN as real / Scale(places)
    requires lo <= hi && 0.0 <= r < 1.0
    ensures lo <= PyRound(Uniform(lo, hi, r), places) <= hi
  {
    PyRoundWithin(Uniform(lo, hi, r), places, loN, hiN);
  }

  /** detect_active_fires: the counted loop appending one detection per pass. */
  method DetectActiveFires(rnd: nat -> real, now: string) returns (fires: seq<Detection>)
    requires UnitDraws(rnd)
    ensures |fires| == FireCount(rnd) && 40 <= |fires| <= 60
    ensures forall i :: 0 <= i < |fires| ==> fires[i] == SimulatedDetection(rnd, i, now)
    ensures forall i :: 0 <= i < |fires| ==> InBelt(fires[i])
  {
    var count := FireCount(rnd);
    fires := [];
    for i := 0 to count
      invariant |fires| == i
      invariant forall m :: 0 <= m < i ==> fires[m] == SimulatedDetection(rnd, m, now) && InBelt(fires[m])
    {
      SimulatedDetectionInBelt(rnd, i, now);
      fires := fires + [SimulatedDetection(rnd, i, now)];
    }
  }

  const DelhiLat: real := 28.61
  const DelhiLon: real := 77.20

  function Abs(x: real): (r: real)
    ensures r >= 0.0 && (r == x || r == -x)
  {
    if x < 0.0 then -x else x
  }

  /** The hotspot lies north and west of Delhi. */
  predicate NorthWest(d: Detection) {
    d.latitude > DelhiLat && d.longitude < DelhiLon
  }

  /** A north-western hotspot's weight: half its frp over the Manhattan
      distance in degrees, which is positive there; any other weighs 0. */
  function SmokeImpact(d: Detection): (w: real)
    ensures !NorthWest(d) ==> w == 0.0
    ensures NorthWest(d) && d.frp > 0.0 ==> w > 0.0
  {
    if NorthWest(d) then
      (d.frp / (Abs(d.latitude - DelhiLat) + Abs(d.longitude - DelhiLon))) * 0.5
    else 0.0
  }

  datatype SmokeForecast = SmokeForecast(totalFires: nat, smokeDriftRisk: string, estimatedPm25Contribution: real)

  /** get_smoke_forecast: accumulate the north-western impacts. */
  method GetSmokeForecast(fires: seq<Detection>) returns (r: SmokeForecast)
    ensures r.totalFires == |fires|
    ensures r.smokeDriftRisk == (if SumOf(fires, SmokeImpact) > 50.0 then "Severe" else "Moderate")
    ensures r.estimatedPm25Contribution == PyRound(SumOf(fires, SmokeImpact), 2)
  {
    var totalImpact := 0.0;
    for i := 0 to |fires|
      invariant totalImpact == SumOf(fires[..i], SmokeImpact)
    {
      var fire := fires[i];
      var distLat := Abs(fire.latitude - DelhiLat);
      var distLon := Abs(fire.longitude - DelhiLon);
      if fire.latitude > DelhiLat && fire.longitude < DelhiLon {
        var impact := (fire.frp / (distLat + distLon)) * 0.5;
        totalImpact := totalImpact + impact;
      }
      assert fires[..i + 1][..i] == fires[..i];
    }
    assert fires[..|fires|] == fires;
    r := SmokeForecast(|fires|, if totalImpact > 50.0 then "Severe" else "Moderate", PyRound(totalImpact, 2));
  }

  /** With non-negative frp every impact is non-negative, and so is the
      rounded PM2.5 estimate. */
  lemma SmokeImpactNonNegative(d: Detection)
    requires d.frp >= 0.0
    ensures SmokeImpact(d) >= 0.0
  {
    if NorthWest(d) {
      var den := Abs(d.latitude - DelhiLat) + Abs(d.longitude - DelhiLon);
      assert den > 0.0;
      assert d.frp / den >= 0.0;
    }
  }

  lemma EstimateNonNegative(fires: seq<Detection>)
    requires forall i :: 0 <= i < |fires| ==> fires[i].frp >= 0.0
    ensures PyRound(SumOf(fires, SmokeImpact), 2) >= 0.0
  {
    forall i | 0 <= i < |fires|
      ensures SmokeImpact(fires[i]) >= 0.0
    {
      SmokeImpactNonNegative(fires[i]);
    }
    SumOfNonNegative(fires, SmokeImpact);
    PyRoundAtLeast(SumOf(fires, SmokeImpact), 2, 0);
  }

  /** Hotspots outside the north-western sector do not move the estimate. */
  lemma {:induction false} OutsideSectorIgnored(fires: seq<Detection>, others: seq<Detection>)
    requires forall i :: 0 <= i < |others| ==> !NorthWest(others[i])
    ensures SumOf(fires + others, SmokeImpact) == SumOf(fires, SmokeImpact)
  {
    if others != [] {
      var init := others[..|others| - 1];
      OutsideSectorIgnored(fires, init);
      assert (fires + others)[..|fires + others| - 1] == fires + init;
    } else {
      assert fires + others == fires;
    }
  }
}
