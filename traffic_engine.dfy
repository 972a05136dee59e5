/** The traffic emission simulator (ml/traffic_engine.py): a rush-hour
    multiplier by hour and weekday, and a snapshot of four Delhi hotspots
    with their vehicle mix, PM2.5 contribution and congestion status.

    The clock is the parameters hour and weekday (Python's weekday(), 0 is
    Monday); the k-th random.random() draw of a snapshot is rnd(k), so the
    noise of location k is random.uniform(0.85, 1.15) on it. */
module TrafficEngine {
  import opened Common

  datatype VehicleType = TwoWheeler | Car | Bus | Truck

  datatype Factors = Factors(pm25: real, nox: real, co: real)

  /** EMISSION_FACTORS, in grams per kilometre. */
  function EmissionFactors(v: VehicleType): Factors {
    match v
    case TwoWheeler => Factors(0.05, 0.1, 1.0)
    case Car => Factors(0.08, 0.2, 1.5)
    case Bus => Factors(0.80, 6.5, 3.0)
    case Truck => Factors(1.10, 8.0, 4.0)
  }

  datatype Location = Location(name: string, lat: real, lon: real, baseLoad: real)

  /** LOCATIONS, in the dictionary's insertion order. */
  const Locations: seq<Location> := [
    Location("ITO Junction", 28.62, 77.24, 1.2),
    Location("Anand Vihar", 28.64, 77.31, 1.5),
    Location("Dhaula Kuan", 28.59, 77.16, 1.0),
    Location("Cyber Hub", 28.49, 77.08, 1.1)
  ]

  /** get_traffic_multiplier: at weekends 0.7 from 11 to 21 and 0.3
      otherwise; on weekdays 1.0 from 8 to 11, 0.95 from 17 to 20 and 0.5
      otherwise. */
  function TrafficMultiplier(hour: int, isWeekend: bool): (m: real)
    ensures m == 0.3 || m == 0.5 || m == 0.7 || m == 0.95 || m == 1.0
    ensures 0.3 <= m <= 1.0
    ensures isWeekend ==> (m == 0.7 <==> 11 <= hour <= 21) && (m == 0.3 <==> !(11 <= hour <= 21))
    ensures !isWeekend ==> (m == 1.0 <==> 8 <= hour <= 11) && (m == 0.95 <==> 17 <= hour <= 20) &&
                           (m == 0.5 <==> !(8 <= hour <= 11) && !(17 <= hour <= 20))
  {
    if isWeekend then
      if 11 <= hour <= 21 then 0.7 else 0.3
    else
      if 8 <= hour <= 11 then 1.0
      else if 17 <= hour <= 20 then 0.95
      else 0.5
  }

  /** During the weekday rush windows the weekday multiplier is above the
      weekend one for the same hour. */
  lemma WeekdayRushBusier(hour: int)
    requires (8 <= hour <= 11) || (17 <= hour <= 20)
    ensures TrafficMultiplier(hour, true) < TrafficMultiplier(hour, false)
  {
  }

  function Load(baseLoad: real, multiplier: real, noise: real): real {
    baseLoad * multiplier * noise
  }

  /** The vehicle mix: int(1500 load) two-wheelers, int(1200 load) cars,
      int(50 load) buses and int(30 load) trucks. */
  datatype Mix = Mix(twoWheeler: int, car: int, bus: int, truck: int)

  function VehicleMix(load: real): Mix {
    Mix(PyInt(1500.0 * load), PyInt(1200.0 * load), PyInt(50.0 * load), PyInt(30.0 * load))
  }

  function CountOf(m: Mix, v: VehicleType): int {
    match v
    case TwoWheeler => m.twoWheeler
    case Car => m.car
    case Bus => m.bus
    case Truck => m.truck
  }

  /** sum(vehicles.values()). */
  function VehicleTotal(m: Mix): int {
    CountOf(m, TwoWheeler) + CountOf(m, Car) + CountOf(m, Bus) + CountOf(m, Truck)
  }

  /** The emission sum: each count times its type's PM2.5 factor. */
  function Pm25Of(m: Mix): real {
    CountOf(m, TwoWheeler) as real * EmissionFactors(TwoWheeler).pm25 +
    CountOf(m, Car) as real * EmissionFactors(Car).pm25 +
    CountOf(m, Bus) as real * EmissionFactors(Bus).pm25 +
    CountOf(m, Truck) as real * EmissionFactors(Truck).pm25
  }

  /** Severe above a load of 1.2, High above 0.8, Moderate otherwise. */
  function StatusOf(load: real): (status: string)
    ensures status == "Severe" <==> load > 1.2
    ensures status == "Moderate" <==> load <= 0.8
  {
    if load > 1.2 then "Severe" else if load > 0.8 then "High" else "Moderate"
  }

  datatype SnapshotEntry = SnapshotEntry(location: string, coordinates: (real, real), trafficIndex: int,
                                         vehicleCount: int, pm25Contribution: real, status: string)

  /** The record generate_snapshot appends for one location. */
  function EntryFor(loc: Location, multiplier: real, noise: real): SnapshotEntry {
    var load := Load(loc.baseLoad, multiplier, noise);
    var mix := VehicleMix(load);
    SnapshotEntry(loc.name, (loc.lat, loc.lon), PyInt(load * 100.0), VehicleTotal(mix),
                  PyRound(Pm25Of(mix), 2), StatusOf(load))
  }

  /** generate_snapshot: one entry per location, in order, each with its
      own noise draw. */
  method GenerateSnapshot(hour: int, weekday: int, rnd: nat -> real) returns (snapshot: seq<SnapshotEntry>)
    requires UnitDraws(rnd)
    ensures |snapshot| == |Locations| == 4
    ensures forall i :: 0 <= i < |snapshot| ==>
      snapshot[i] == EntryFor(Locations[i], TrafficMultiplier(hour, weekday >= 5), Uniform(0.85, 1.15, rnd(i)))
  {
    var isWeekend := weekday >= 5;
    var multiplier := TrafficMultiplier(hour, isWeekend);
    snapshot := [];
    var i := 0;
    while i < |Locations|
      invariant 0 <= i <= |Locations|
      invariant |snapshot| == i
      invariant forall k :: 0 <= k < i ==>
        snapshot[k] == EntryFor(Locations[k], multiplier, Uniform(0.85, 1.15, rnd(k)))
    {
      var loc := Locations[i];
      var noise := Uniform(0.85, 1.15, rnd(i));
      var load := Load(loc.baseLoad, multiplier, noise);
      var vehicles := Mix(PyInt(1500.0 * load), PyInt(1200.0 * load), PyInt(50.0 * load), PyInt(30.0 * load));
      var pm25 := vehicles.twoWheeler as real * 0.05 + vehicles.car as real * 0.08 +
                  vehicles.bus as real * 0.80 + vehicles.truck as real * 1.10;
      var status := if load > 1.2 then "Severe" else if load > 0.8 then "High" else "Moderate";
      var entry := SnapshotEntry(loc.name, (loc.lat, loc.lon), PyInt(load * 100.0),
                                 vehicles.twoWheeler + vehicles.car + vehicles.bus + vehicles.truck,
                                 PyRound(pm25, 2), status);
      assert vehicles == VehicleMix(load) && pm25 == Pm25Of(vehicles);
      assert entry == EntryFor(loc, multiplier, noise);
      snapshot := snapshot + [entry];
      i := i + 1;
    }
  }

  /** Truncation loses less than one vehicle per type, so a non-negative
      load gives between 2780 load - 4 (exclusive) and 2780 load vehicles. */
  lemma VehicleCountTracksLoad(load: real)
    requires 0.0 <= load
    ensures var n := VehicleTotal(VehicleMix(load)) as real;
      2780.0 * load - 4.0 < n <= 2780.0 * load
  {
  }

  /** The PM2.5 sum is 244 g/km per unit of load, less under 2.03 for the
      truncated vehicles, and its two-place rounding is not negative. */
  lemma Pm25TracksLoad(load: real)
    requires 0.0 <= load
    ensures var pm := Pm25Of(VehicleMix(load));
      244.0 * load - 2.03 < pm <= 244.0 * load && 0.0 <= PyRound(pm, 2)
  {
    var m := VehicleMix(load);
    assert 0.0 <= Pm25Of(m);
    PyRoundAtLeast(Pm25Of(m), 2, 0);
  }

  /** Entries carry the location's name and coordinates, a traffic index
      of int(100 load) and the status of that load, where the load lies
      between 0.85 and 1.15 times base load times multiplier. */
  lemma EntryReportsLoad(loc: Location, multiplier: real, r: real)
    requires 0.0 <= r < 1.0 && 0.0 <= multiplier && 0.0 <= loc.baseLoad
    ensures var load := Load(loc.baseLoad, multiplier, Uniform(0.85, 1.15, r));
      var e := EntryFor(loc, multiplier, Uniform(0.85, 1.15, r));
      loc.baseLoad * multiplier * 0.85 <= load <= loc.baseLoad * multiplier * 1.15 &&
      e.location == loc.name && e.coordinates == (loc.lat, loc.lon) &&
      e.trafficIndex == PyInt(load * 100.0) && 0 <= e.trafficIndex && e.status == StatusOf(load)
  {
    LoadBounds(loc.baseLoad, multiplier, Uniform(0.85, 1.15, r));
  }

  lemma LoadBounds(baseLoad: real, multiplier: real, noise: real)
    requires 0.0 <= multiplier && 0.0 <= baseLoad && 0.85 <= noise <= 1.15
    ensures 0.0 <= baseLoad * multiplier * 0.85 <= Load(baseLoad, multiplier, noise) <= baseLoad * multiplier * 1.15
  {
    var bm := baseLoad * multiplier;
    MulMonotone(0.0, baseLoad, multiplier);
    MulMonotone(0.0, 0.85, bm);
    MulMonotone(0.85, noise, bm);
    MulMonotone(noise, 1.15, bm);
    assert Load(baseLoad, multiplier, noise) == noise * bm;
  }

  /** Outside 11-21 at weekends the multiplier is 0.3, so even Anand Vihar
      (base 1.5) stays below 0.52 and every location reads Moderate. */
  lemma QuietWeekendModerate(hour: int, weekday: int, r: real, i: nat)
    requires weekday >= 5 && !(11 <= hour <= 21)
    requires 0.0 <= r < 1.0 && i < |Locations|
    ensures EntryFor(Locations[i], TrafficMultiplier(hour, weekday >= 5), Uniform(0.85, 1.15, r)).status == "Moderate"
  {
    var loc := Locations[i];
    EntryReportsLoad(loc, 0.3, r);
    MulMonotone(loc.baseLoad * 0.3, 1.5 * 0.3, 1.15);
  }
}
