/** The front-end traffic mock (src/utils/trafficSimulator.js): four
    hotspots, a rush-hour multiplier, and per-location load, counts and
    status.

    The hour is a parameter and the Math.random() draw of location k is
    rnd(k). */
module TrafficSimulator {
  import opened Common

  datatype Location = Location(name: string, base: real)

  const Locations: seq<Location> := [
    Location("ITO Junction", 1.2),
    Location("Anand Vihar", 1.5),
    Location("Dhaula Kuan", 1.0),
    Location("Cyber Hub", 1.1)
  ]

  /** 8-11 in the morning and 17-20 in the evening. */
  predicate IsRushHour(hour: int) {
    (8 <= hour <= 11) || (17 <= hour <= 20)
  }

  function Multiplier(hour: int): (m: real)
    ensures m == 1.0 <==> IsRushHour(hour)
    ensures m == 0.6 <==> !IsRushHour(hour)
  {
    if IsRushHour(hour) then 1.0 else 0.6
  }

  /** The noise factor 0.9 + 0.2 r. */
  function Noise(r: real): (n: real)
    requires 0.0 <= r < 1.0
    ensures 0.9 <= n < 1.1
  {
    0.9 + r * 0.2
  }

  function Load(base: real, multiplier: real, noise: real): real {
    base * multiplier * noise
  }

  /** Critical above a load of 1.2, Heavy above 0.8, Normal otherwise. */
  function StatusOf(load: real): (status: string)
    ensures status == "Critical" <==> load > 1.2
    ensures status == "Normal" <==> load <= 0.8
  {
    if load > 1.2 then "Critical" else if load > 0.8 then "Heavy" else "Normal"
  }

  datatype TrafficEntry = TrafficEntry(location: string, trafficIndex: int, vehicleCount: int,
                                       pm25Contribution: int, status: string)

  function EntryAt(loc: Location, multiplier: real, noise: real): TrafficEntry {
    var load := Load(loc.base, multiplier, noise);
    TrafficEntry(loc.name, JsRound(load * 100.0), JsRound(1500.0 * load), JsRound(load * 85.0), StatusOf(load))
  }

  /** generateTrafficData: one entry per location, in the list's order. */
  function GenerateTrafficData(hour: int, rnd: nat -> real): (data: seq<TrafficEntry>)
    requires UnitDraws(rnd)
    ensures |data| == |Locations| == 4
    ensures forall i :: 0 <= i < |data| ==> data[i].location == Locations[i].name
  {
    seq(|Locations|, i requires 0 <= i < |Locations| => EntryAt(Locations[i], Multiplier(hour), Noise(rnd(i))))
  }

  /** Each entry's figures are the rounded 100, 1500 and 85 multiples of
      the location's load, which lies in [0.9, 1.1) times base times the
      hour's multiplier; the status is the load's band. */
  lemma EntryFigures(hour: int, rnd: nat -> real, i: nat)
    requires UnitDraws(rnd) && i < |Locations|
    ensures var load := Load(Locations[i].base, Multiplier(hour), Noise(rnd(i)));
      var e := GenerateTrafficData(hour, rnd)[i];
      Locations[i].base * Multiplier(hour) * 0.9 <= load < Locations[i].base * Multiplier(hour) * 1.1 &&
      e.trafficIndex == JsRound(load * 100.0) && e.vehicleCount == JsRound(1500.0 * load) &&
      e.pm25Contribution == JsRound(load * 85.0) && e.status == StatusOf(load)
  {
    LoadBounds(Locations[i].base, Multiplier(hour), Noise(rnd(i)));
  }

  lemma LoadBounds(base: real, multiplier: real, noise: real)
    requires 0.0 < base && 0.0 < multiplier && 0.9 <= noise < 1.1
    ensures base * multiplier * 0.9 <= Load(base, multiplier, noise) < base * multiplier * 1.1
  {
    var bm := base * multiplier;
    MulPositive(base, multiplier);
    MulMonotone(0.9, noise, bm);
    assert noise * bm < 1.1 * bm;
    assert Load(base, multiplier, noise) == noise * bm;
  }

  /** Off-peak the load is below 1.5 x 0.6 x 1.1 = 0.99 < 1.2, so no
      location is ever Critical. */
  lemma OffPeakNeverCritical(hour: int, rnd: nat -> real, i: nat)
    requires UnitDraws(rnd) && !IsRushHour(hour) && i < |Locations|
    ensures GenerateTrafficData(hour, rnd)[i].status != "Critical"
  {
    EntryFigures(hour, rnd, i);
    MulMonotone(Locations[i].base * 0.6, 1.5 * 0.6, 1.1);
  }

  /** At rush hour Anand Vihar's load is at least 1.5 x 0.9 = 1.35, so it is
      always Critical. */
  lemma AnandViharCriticalAtRush(hour: int, rnd: nat -> real)
    requires UnitDraws(rnd) && IsRushHour(hour)
    ensures GenerateTrafficData(hour, rnd)[1].location == "Anand Vihar"
    ensures GenerateTrafficData(hour, rnd)[1].status == "Critical"
  {
    EntryFigures(hour, rnd, 1);
  }

  /** The status only worsens with load. */
  lemma StatusMonotone(load: real, more: real)
    requires load <= more
    ensures StatusOf(load) == "Critical" ==> StatusOf(more) == "Critical"
    ensures StatusOf(more) == "Normal" ==> StatusOf(load) == "Normal"
  {
  }
}
