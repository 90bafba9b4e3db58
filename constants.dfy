/**
 * The mock data tables and the builder that produces a basin's simulation
 * data: the North Indian data as written, a North Atlantic copy shifted onto
 * Florida, and nothing for any other basin. The Gaussian perturbation of the
 * forecast ensemble draws random numbers; the draws are a `Noise` parameter.
 */
module Constants {
  import opened Types
  import opened Text

  const INITIAL_CENTER := Coordinate(9.0, 81.0)

  // ---------------------------------------------------------------------
  // Basin registry, regions and their centres
  // ---------------------------------------------------------------------

  const GLOBAL_BASINS: seq<Basin> := [
    Basin("ni", "North Indian", "IMD+ECMWF", ["India", "Bangladesh", "Sri Lanka", "Myanmar"], Coordinate(9.0, 81.0)),
    Basin("na", "North Atlantic", "NHC+NOAA", ["USA", "Mexico", "Cuba", "Bahamas"], Coordinate(26.0, -80.0)),
    Basin("ep", "Eastern Pacific", "NHC", ["Mexico", "Guatemala"], Coordinate(18.0, -105.0)),
    Basin("wp", "Western Pacific", "JMA+GFS", ["Japan", "Philippines", "China"], Coordinate(20.0, 130.0)),
    Basin("si", "SW Indian", "MeteoFrance", ["Madagascar", "Mozambique"], Coordinate(-20.0, 55.0)),
    Basin("au", "Australian", "BoM", ["Australia", "Indonesia"], Coordinate(-15.0, 130.0)),
    Basin("sp", "South Pacific", "FMS", ["Fiji", "Vanuatu"], Coordinate(-18.0, 178.0))
  ]

  const MOCK_REGIONS: map<string, seq<string>> := map[
    "India" := ["Tamil Nadu", "Andhra Pradesh", "Odisha", "West Bengal"],
    "USA" := ["Florida", "Texas", "Louisiana", "South Carolina"],
    "Japan" := ["Kanto", "Kansai", "Tohoku", "Kyushu"],
    "Philippines" := ["Luzon", "Visayas", "Mindanao"],
    "Australia" := ["Queensland", "Northern Territory", "Western Australia"],
    "Mexico" := ["Yucatan", "Veracruz", "Quintana Roo"],
    "Madagascar" := ["Antananarivo", "Toamasina"]
  ]

  const REGION_CENTERS: map<string, Coordinate> := map[
    "India" := Coordinate(20.5937, 78.9629),
    "USA" := Coordinate(37.0902, -95.7129),
    "Japan" := Coordinate(36.2048, 138.2529),
    "Philippines" := Coordinate(12.8797, 121.7740),
    "Australia" := Coordinate(-25.2744, 133.7751),
    "Mexico" := Coordinate(23.6345, -102.5528),
    "Madagascar" := Coordinate(-18.7669, 46.8691),
    "Tamil Nadu" := Coordinate(11.1271, 78.6569),
    "Andhra Pradesh" := Coordinate(15.9129, 79.7400),
    "Odisha" := Coordinate(20.9517, 85.0985),
    "West Bengal" := Coordinate(22.9868, 87.8550),
    "Florida" := Coordinate(27.6648, -81.5158),
    "Texas" := Coordinate(31.9686, -99.9018),
    "Louisiana" := Coordinate(30.9843, -91.9623),
    "South Carolina" := Coordinate(33.8361, -81.1637),
    "Kanto" := Coordinate(35.7090, 139.7320),
    "Kansai" := Coordinate(34.6937, 135.5023),
    "Tohoku" := Coordinate(38.2682, 140.8694),
    "Kyushu" := Coordinate(33.5904, 130.4017),
    "Luzon" := Coordinate(16.5662, 121.2626),
    "Visayas" := Coordinate(11.0000, 123.5000),
    "Mindanao" := Coordinate(8.0000, 125.0000),
    "Queensland" := Coordinate(-20.9176, 142.7028),
    "Northern Territory" := Coordinate(-19.4914, 132.5510),
    "Western Australia" := Coordinate(-27.6728, 121.6283),
    "Yucatan" := Coordinate(20.4005, -89.1349),
    "Veracruz" := Coordinate(19.1738, -96.1342),
    "Quintana Roo" := Coordinate(19.1817, -88.4791),
    "Antananarivo" := Coordinate(-18.8792, 47.5079),
    "Toamasina" := Coordinate(-18.1492, 49.4023)
  ]

  // ---------------------------------------------------------------------
  // Base data: the North Indian cyclone and its surroundings
  // ---------------------------------------------------------------------

  const CYCLONE_TRACK: seq<CycloneTrackPoint> := [
    CycloneTrackPoint(5.8, 84.5, "2025-11-26T00:00:00Z", 45, 1004, "Depression", false),
    CycloneTrackPoint(6.2, 83.8, "2025-11-26T12:00:00Z", 50, 1002, "Deep Depression", false),
    CycloneTrackPoint(6.8, 82.5, "2025-11-27T00:00:00Z", 65, 998, "Cyclonic Storm", false),
    CycloneTrackPoint(7.2, 81.9, "2025-11-27T12:00:00Z", 75, 996, "Cyclonic Storm", false),
    CycloneTrackPoint(7.8, 81.2, "2025-11-28T00:00:00Z", 70, 998, "Cyclonic Storm", false),
    CycloneTrackPoint(8.5, 80.5, "2025-11-28T12:00:00Z", 60, 1000, "Deep Depression", false),
    CycloneTrackPoint(9.8, 80.6, "2025-11-29T00:00:00Z", 55, 1000, "Deep Depression", false),
    CycloneTrackPoint(10.9, 80.5, "2025-11-29T12:00:00Z", 60, 998, "Deep Depression", true),
    CycloneTrackPoint(11.5, 80.3, "2025-11-30T00:00:00Z", 55, 1000, "Deep Depression", true),
    CycloneTrackPoint(11.8, 80.2, "2025-11-30T12:00:00Z", 50, 1002, "Deep Depression", true),
    CycloneTrackPoint(12.2, 80.3, "2025-12-01T00:00:00Z", 45, 1004, "Deep Depression", true),
    CycloneTrackPoint(12.5, 80.2, "2025-12-01T12:00:00Z", 40, 1004, "Depression", true),
    CycloneTrackPoint(12.7, 79.9, "2025-12-02T00:00:00Z", 35, 1006, "Depression", true),
    CycloneTrackPoint(12.5, 79.5, "2025-12-02T12:00:00Z", 30, 1008, "Low Pressure Area", true),
    CycloneTrackPoint(12.1, 79.2, "2025-12-03T00:00:00Z", 20, 1010, "Dissipated", true)
  ]

  const IMD_OBSERVED_TRACK: seq<Coordinate> := [
    Coordinate(5.8, 84.5), Coordinate(6.8, 82.5), Coordinate(7.8, 81.2),
    Coordinate(9.8, 80.6), Coordinate(11.5, 80.3), Coordinate(12.2, 80.3),
    Coordinate(12.7, 79.9), Coordinate(12.1, 79.2)
  ]

  const LEGACY_MODEL_TRACK: seq<Coordinate> := [
    Coordinate(5.8, 84.5), Coordinate(7.0, 83.0), Coordinate(8.5, 82.0),
    Coordinate(10.5, 81.5), Coordinate(12.0, 81.2), Coordinate(13.5, 80.8),
    Coordinate(14.8, 80.2), Coordinate(16.0, 79.5)
  ]

  const DISTRICTS: seq<DistrictRisk> := [
    DistrictRisk("tn1", "Chennai", "Tamil Nadu", 8.9, 8.5, 9.3, 8500000, 120, 13.0827, 80.2707),
    DistrictRisk("tn2", "Chengalpattu", "Tamil Nadu", 8.5, 8.0, 9.0, 2800000, 45, 12.693, 80.003),
    DistrictRisk("tn3", "Nagapattinam", "Tamil Nadu", 7.2, 6.8, 7.6, 1600000, 20, 10.76, 79.84),
    DistrictRisk("tn4", "Ramanathapuram", "Tamil Nadu", 6.5, 6.0, 7.0, 1300000, 15, 9.36, 78.83),
    DistrictRisk("tn5", "Cuddalore", "Tamil Nadu", 7.8, 7.2, 8.4, 2600000, 25, 11.748, 79.771)
  ]

  const EARTHQUAKES: seq<Earthquake> := [
    Earthquake("eq1", 4.8, 15.0, 10.5, 92.5, "2025-11-26T04:30:00Z", "Andaman Sea")
  ]

  const FLOOD_ZONES: seq<FloodZone> := [
    FloodZone("fz1", Severe, [Coordinate(13.00, 80.20), Coordinate(13.02, 80.25), Coordinate(12.98, 80.26), Coordinate(12.96, 80.22)]),
    FloodZone("fz2", High, [Coordinate(12.55, 80.10), Coordinate(12.60, 80.15), Coordinate(12.50, 80.18), Coordinate(12.45, 80.12)])
  ]

  const SHELTERS: seq<Shelter> := [
    Shelter("s1", "Chennai Corp. Community Hall", 5000, 3200, 13.05, 80.22, CommunityHall),
    Shelter("s2", "Mahabalipuram Govt School", 2000, 1850, 12.62, 80.17, School),
    Shelter("s3", "Kalpakkam Safety Bunker", 3000, 450, 12.55, 80.16, Bunker)
  ]

  const POWER_PLANTS: seq<PowerPlant> := [
    PowerPlant("pp1", "North Chennai Thermal", Coal, 1830, 13.24, 80.32),
    PowerPlant("pp2", "MAPS (Madras Atomic)", Nuclear, 440, 12.55, 80.17),
    PowerPlant("pp3", "Neyveli Lignite Corp", Coal, 3940, 11.59, 79.46)
  ]

  const EVACUATION_ROUTES: seq<EvacuationRoute> := [
    EvacuationRoute("er1", "tn1", "s1", [Coordinate(13.0827, 80.2707), Coordinate(13.07, 80.25), Coordinate(13.05, 80.22)], Blocked),
    EvacuationRoute("er2", "tn2", "s2", [Coordinate(12.693, 80.003), Coordinate(12.65, 80.10), Coordinate(12.62, 80.17)], Open)
  ]

  /** The districts of the Florida demonstration. */
  const FLORIDA_DISTRICTS: seq<DistrictRisk> := [
    DistrictRisk("fl1", "Miami-Dade", "Florida", 8.9, 8.5, 9.3, 2700000, 150, 25.7617, -80.1918),
    DistrictRisk("fl2", "Broward", "Florida", 8.5, 8.0, 9.0, 1900000, 90, 26.1224, -80.1373),
    DistrictRisk("fl3", "Palm Beach", "Florida", 7.8, 7.2, 8.4, 1400000, 60, 26.7153, -80.0534),
    DistrictRisk("fl4", "Tampa Bay", "Florida", 6.5, 6.0, 7.0, 3000000, 80, 27.9506, -82.4572)
  ]

  // ---------------------------------------------------------------------
  // Forecast ensemble
  // ---------------------------------------------------------------------

  /** The random draws of the ensemble generator: for member `m` and track
      index `j`, the two standard-normal samples added to latitude and
      longitude (in that order). */
  type Noise = (nat, nat) -> (real, real)

  const ENSEMBLE_SIZE: nat := 100
  const UNCERTAINTY_GROWTH_RATE: real := 0.12
  const ENSEMBLE_COLOR := "rgba(56, 189, 248, 0.15)"

  /** `track.findIndex(p => p.isForecast)`: the first forecast index, or -1. */
  function FirstForecast(track: seq<CycloneTrackPoint>): (r: int)
    ensures -1 <= r < |track|
    ensures r >= 0 ==> track[r].isForecast && forall j :: 0 <= j < r ==> !track[j].isForecast
    ensures r == -1 ==> forall j :: 0 <= j < |track| ==> !track[j].isForecast
  {
    if |track| == 0 then -1
    else if track[0].isForecast then 0
    else
      var k := FirstForecast(track[1..]);
      if k < 0 then -1 else k + 1
  }

  /** The point of member `m` at index `j`: an observed fix is kept as it is;
      a forecast fix is displaced by the member's draws times a spread that
      grows by 0.12 per step after the first forecast fix. */
  function PathPoint(base: seq<CycloneTrackPoint>, noise: Noise, m: nat, j: nat): Coordinate
    requires j < |base|
  {
    var p := base[j];
    if !p.isForecast then p.At()
    else
      var sigma := (j - FirstForecast(base)) as real * UNCERTAINTY_GROWTH_RATE;
      var z := noise(m, j);
      Coordinate(p.lat + z.0 * sigma, p.lng + z.1 * sigma)
  }

  function MemberPath(base: seq<CycloneTrackPoint>, noise: Noise, m: nat): seq<Coordinate>
  {
    seq(|base|, j requires 0 <= j < |base| => PathPoint(base, noise, m, j))
  }

  /** The ensemble `generateEnsemble(base)` builds from the given draws. */
  function Ensemble(base: seq<CycloneTrackPoint>, noise: Noise): seq<EnsembleMember>
  {
    seq(ENSEMBLE_SIZE, i requires 0 <= i < ENSEMBLE_SIZE => EnsembleMember(i, MemberPath(base, noise, i), ENSEMBLE_COLOR))
  }

  /** `generateEnsemble`: one hundred members pushed in order of their id. */
  method GenerateEnsemble(base: seq<CycloneTrackPoint>, noise: Noise) returns (ensembles: seq<EnsembleMember>)
    ensures ensembles == Ensemble(base, noise)
    ensures |ensembles| == 100
    ensures forall i :: 0 <= i < |ensembles| ==> ensembles[i].id == i && |ensembles[i].path| == |base|
    ensures forall i, j :: 0 <= i < |ensembles| && 0 <= j < |base| && !base[j].isForecast ==>
      ensembles[i].path[j] == base[j].At()
  {
    ensembles := [];
    var i := 0;
    while i < ENSEMBLE_SIZE
      invariant 0 <= i <= ENSEMBLE_SIZE
      invariant ensembles == Ensemble(base, noise)[..i]
    {
      var path := MemberPath(base, noise, i);
      ensembles := ensembles + [EnsembleMember(i, path, ENSEMBLE_COLOR)];
      i := i + 1;
    }
  }

  // ---------------------------------------------------------------------
  // Shifting the base data onto Florida
  // ---------------------------------------------------------------------

  const LAT_DELTA: real := 13.0
  const LNG_DELTA: real := -160.0

  function Shift(c: Coordinate): Coordinate
  {
    Coordinate(c.lat + LAT_DELTA, c.lng + LNG_DELTA)
  }

  function ShiftAll(cs: seq<Coordinate>): (r: seq<Coordinate>)
    ensures |r| == |cs| && forall i :: 0 <= i < |cs| ==> r[i] == Shift(cs[i])
  {
    seq(|cs|, i requires 0 <= i < |cs| => Shift(cs[i]))
  }

  /** `{ ...p, ...shift(p) }`: every field kept but the position. */
  function ShiftPoint(p: CycloneTrackPoint): CycloneTrackPoint
  {
    p.(lat := p.lat + LAT_DELTA, lng := p.lng + LNG_DELTA)
  }

  function ShiftZone(z: FloodZone): FloodZone
  {
    z.(coordinates := ShiftAll(z.coordinates))
  }

  /** `name.replace("Chennai", "Miami").replace("Mahabalipuram", "Fort Lauderdale")`. */
  function ShelterRename(name: string): string
  {
    ReplaceFirst(ReplaceFirst(name, "Chennai", "Miami"), "Mahabalipuram", "Fort Lauderdale")
  }

  /** `name.replace("North Chennai", "Turkey Point Nuclear").replace("Neyveli", "Port St. Lucie")`. */
  function PlantRename(name: string): string
  {
    ReplaceFirst(ReplaceFirst(name, "North Chennai", "Turkey Point Nuclear"), "Neyveli", "Port St. Lucie")
  }

  function ShiftShelter(s: Shelter): Shelter
  {
    s.(name := ShelterRename(s.name), lat := s.lat + LAT_DELTA, lng := s.lng + LNG_DELTA)
  }

  function ShiftPlant(p: PowerPlant): PowerPlant
  {
    p.(name := PlantRename(p.name), lat := p.lat + LAT_DELTA, lng := p.lng + LNG_DELTA)
  }

  function ShiftRoute(r: EvacuationRoute): EvacuationRoute
  {
    r.(path := ShiftAll(r.path))
  }

  // Each `.map(...)` of the builder.

  function ShiftTrack(track: seq<CycloneTrackPoint>): (r: seq<CycloneTrackPoint>)
    ensures |r| == |track| && forall i :: 0 <= i < |track| ==> r[i] == ShiftPoint(track[i])
  {
    seq(|track|, i requires 0 <= i < |track| => ShiftPoint(track[i]))
  }

  function ShiftZones(zones: seq<FloodZone>): (r: seq<FloodZone>)
    ensures |r| == |zones| && forall i :: 0 <= i < |zones| ==> r[i] == ShiftZone(zones[i])
  {
    seq(|zones|, i requires 0 <= i < |zones| => ShiftZone(zones[i]))
  }

  function ShiftShelters(shelters: seq<Shelter>): (r: seq<Shelter>)
    ensures |r| == |shelters| && forall i :: 0 <= i < |shelters| ==> r[i] == ShiftShelter(shelters[i])
  {
    seq(|shelters|, i requires 0 <= i < |shelters| => ShiftShelter(shelters[i]))
  }

  function ShiftPlants(plants: seq<PowerPlant>): (r: seq<PowerPlant>)
    ensures |r| == |plants| && forall i :: 0 <= i < |plants| ==> r[i] == ShiftPlant(plants[i])
  {
    seq(|plants|, i requires 0 <= i < |plants| => ShiftPlant(plants[i]))
  }

  function ShiftRoutes(routes: seq<EvacuationRoute>): (r: seq<EvacuationRoute>)
    ensures |r| == |routes| && forall i :: 0 <= i < |routes| ==> r[i] == ShiftRoute(routes[i])
  {
    seq(|routes|, i requires 0 <= i < |routes| => ShiftRoute(routes[i]))
  }

  const FLORIDA_TRACK: seq<CycloneTrackPoint> := ShiftTrack(CYCLONE_TRACK)

  const FLORIDA_FLOOD_ZONES: seq<FloodZone> := ShiftZones(FLOOD_ZONES)
  const FLORIDA_SHELTERS: seq<Shelter> := ShiftShelters(SHELTERS)
  const FLORIDA_POWER_PLANTS: seq<PowerPlant> := ShiftPlants(POWER_PLANTS)
  const FLORIDA_EVACUATION_ROUTES: seq<EvacuationRoute> := ShiftRoutes(EVACUATION_ROUTES)

  /** `getSimulationData(basinId)`. `ENSEMBLES`, built once when the data
      module loads, is drawn from `loadNoise`; the Florida ensemble is drawn
      afresh on every call, from `callNoise`. */
  function GetSimulationData(basinId: string, loadNoise: Noise, callNoise: Noise): (r: SimulationData)
    ensures r.districts == DistrictsFor(basinId) && r.shelters == SheltersFor(basinId)
    ensures basinId == "ni" || basinId == "na" ==> |r.ensembles| == ENSEMBLE_SIZE && |r.track| == |CYCLONE_TRACK|
  {
    if basinId == "ni" then
      SimulationData(CYCLONE_TRACK, Ensemble(CYCLONE_TRACK, loadNoise), DISTRICTS, FLOOD_ZONES,
                     SHELTERS, POWER_PLANTS, EVACUATION_ROUTES, EARTHQUAKES)
    else if basinId == "na" then
      SimulationData(
        FLORIDA_TRACK,
        Ensemble(FLORIDA_TRACK, callNoise),
        FLORIDA_DISTRICTS, FLORIDA_FLOOD_ZONES, FLORIDA_SHELTERS, FLORIDA_POWER_PLANTS, FLORIDA_EVACUATION_ROUTES,
        [])
    else
      SimulationData([], [], [], [], [], [], [], [])
  }

  /** The districts of a basin's data, read without building the rest. */
  function DistrictsFor(basinId: string): seq<DistrictRisk>
  {
    if basinId == "ni" then DISTRICTS else if basinId == "na" then FLORIDA_DISTRICTS else []
  }

  /** The shelters of a basin's data, read without building the rest. */
  function SheltersFor(basinId: string): (r: seq<Shelter>)
    ensures basinId == "ni" || basinId == "na" ==> |r| == 3
  {
    if basinId == "ni" then SHELTERS else if basinId == "na" then FLORIDA_SHELTERS else []
  }

  // ---------------------------------------------------------------------
  // Properties of the builder and the tables
  // ---------------------------------------------------------------------

  /** The North Indian data is the base tables, unchanged. */
  lemma NorthIndianIsBase(loadNoise: Noise, callNoise: Noise)
    ensures var d := GetSimulationData("ni", loadNoise, callNoise);
      d.track == CYCLONE_TRACK && d.districts == DISTRICTS && d.floodZones == FLOOD_ZONES &&
      d.shelters == SHELTERS && d.powerPlants == POWER_PLANTS && d.evacRoutes == EVACUATION_ROUTES &&
      d.earthquakes == EARTHQUAKES && d.ensembles == Ensemble(CYCLONE_TRACK, loadNoise)
  {
  }

  /** The North Atlantic data moves every position by +13 latitude and -160
      longitude, keeps every other field and every list's length, has the
      four Florida districts and no earthquakes. */
  lemma NorthAtlanticIsShifted(loadNoise: Noise, callNoise: Noise)
    ensures var d := GetSimulationData("na", loadNoise, callNoise);
      && |d.track| == |CYCLONE_TRACK|
      && (forall i :: 0 <= i < |d.track| ==>
            d.track[i].lat == CYCLONE_TRACK[i].lat + 13.0 && d.track[i].lng == CYCLONE_TRACK[i].lng - 160.0 &&
            d.track[i].(lat := 0.0, lng := 0.0) == CYCLONE_TRACK[i].(lat := 0.0, lng := 0.0))
      && |d.floodZones| == |FLOOD_ZONES|
      && (forall i :: 0 <= i < |d.floodZones| ==>
            |d.floodZones[i].coordinates| == |FLOOD_ZONES[i].coordinates| &&
            d.floodZones[i].(coordinates := []) == FLOOD_ZONES[i].(coordinates := []))
      && (forall i, k :: 0 <= i < |d.floodZones| && 0 <= k < |FLOOD_ZONES[i].coordinates| ==>
            d.floodZones[i].coordinates[k] == Coordinate(FLOOD_ZONES[i].coordinates[k].lat + 13.0, FLOOD_ZONES[i].coordinates[k].lng - 160.0))
      && |d.shelters| == |SHELTERS|
      && (forall i :: 0 <= i < |d.shelters| ==>
            d.shelters[i].lat == SHELTERS[i].lat + 13.0 && d.shelters[i].lng == SHELTERS[i].lng - 160.0 &&
            d.shelters[i].(name := "", lat := 0.0, lng := 0.0) == SHELTERS[i].(name := "", lat := 0.0, lng := 0.0))
      && |d.powerPlants| == |POWER_PLANTS|
      && (forall i :: 0 <= i < |d.powerPlants| ==>
            d.powerPlants[i].lat == POWER_PLANTS[i].lat + 13.0 && d.powerPlants[i].lng == POWER_PLANTS[i].lng - 160.0 &&
            d.powerPlants[i].(name := "", lat := 0.0, lng := 0.0) == POWER_PLANTS[i].(name := "", lat := 0.0, lng := 0.0))
      && |d.evacRoutes| == |EVACUATION_ROUTES|
      && (forall i :: 0 <= i < |d.evacRoutes| ==>
            |d.evacRoutes[i].path| == |EVACUATION_ROUTES[i].path| &&
            d.evacRoutes[i].(path := []) == EVACUATION_ROUTES[i].(path := []))
      && (forall i, k :: 0 <= i < |d.evacRoutes| && 0 <= k < |EVACUATION_ROUTES[i].path| ==>
            d.evacRoutes[i].path[k] == Coordinate(EVACUATION_ROUTES[i].path[k].lat + 13.0, EVACUATION_ROUTES[i].path[k].lng - 160.0))
      && |d.districts| == 4 && (forall i :: 0 <= i < 4 ==> d.districts[i].state == "Florida")
      && d.earthquakes == []
  {
  }

  /** Any basin but "ni" and "na" has no data at all. */
  lemma OtherBasinsAreEmpty(basinId: string, loadNoise: Noise, callNoise: Noise)
    requires basinId != "ni" && basinId != "na"
    ensures GetSimulationData(basinId, loadNoise, callNoise) == SimulationData([], [], [], [], [], [], [], [])
  {
  }

  /** The ensemble in every basin's data: one hundred members, ids 0..99,
      each path as long as the basin's track, observed fixes copied. */
  lemma EnsembleShape(basinId: string, loadNoise: Noise, callNoise: Noise)
    ensures var d := GetSimulationData(basinId, loadNoise, callNoise);
      (basinId == "ni" || basinId == "na") ==>
        && |d.ensembles| == 100
        && (forall i :: 0 <= i < 100 ==> d.ensembles[i].id == i && |d.ensembles[i].path| == |d.track|)
        && (forall i, j :: 0 <= i < 100 && 0 <= j < |d.track| && !d.track[j].isForecast ==>
              d.ensembles[i].path[j] == d.track[j].At())
  {
  }

  /** In the base track the forecast fixes form a suffix: seven observed
      fixes, then eight forecast ones. */
  lemma ForecastIsSuffix()
    ensures |CYCLONE_TRACK| == 15
    ensures forall i :: 0 <= i < 7 ==> !CYCLONE_TRACK[i].isForecast
    ensures forall i :: 7 <= i < 15 ==> CYCLONE_TRACK[i].isForecast
    ensures FirstForecast(CYCLONE_TRACK) == 7
  {
    assert forall i :: 0 <= i < 7 ==> !CYCLONE_TRACK[i].isForecast;
  }

  /** Every country of the region table and each of its regions has a
      centre. */
  lemma RegionsHaveCentres()
    ensures forall c :: c in MOCK_REGIONS ==> c in REGION_CENTERS
    ensures forall c, i :: c in MOCK_REGIONS && 0 <= i < |MOCK_REGIONS[c]| ==> MOCK_REGIONS[c][i] in REGION_CENTERS
  {
  }

  /** No offered region has an empty name. */
  lemma RegionNamesNonEmpty()
    ensures forall c, i :: c in MOCK_REGIONS && 0 <= i < |MOCK_REGIONS[c]| ==> MOCK_REGIONS[c][i] != ""
  {
  }

  /** Both populated basins have shelters, so `shelters[0]` is defined. */
  lemma SheltersNonEmpty(basinId: string, loadNoise: Noise, callNoise: Noise)
    requires basinId == "ni" || basinId == "na"
    ensures |GetSimulationData(basinId, loadNoise, callNoise).shelters| == 3
  {
  }

  // The renamings of the Florida builder, one name at a time.

  /** Only the first pattern occurs, at the start of the name. */
  lemma {:induction false} RenameFirstOnly(n: string, p1: string, r1: string, p2: string, r2: string, k: nat)
    requires |p1| <= |n| && n[..|p1|] == p1
    requires k < |p2| && p2[k] !in r1 + n[|p1|..]
    ensures ReplaceFirst(ReplaceFirst(n, p1, r1), p2, r2) == r1 + n[|p1|..]
  {
    ReplaceAtStart(n, p1, r1);
    ReplaceAbsent(r1 + n[|p1|..], p2, r2, k);
  }

  /** Only the second pattern occurs, at the start of the name. */
  lemma {:induction false} RenameSecondOnly(n: string, p1: string, r1: string, p2: string, r2: string, k: nat)
    requires k < |p1| && p1[k] !in n
    requires |p2| <= |n| && n[..|p2|] == p2
    ensures ReplaceFirst(ReplaceFirst(n, p1, r1), p2, r2) == r2 + n[|p2|..]
  {
    ReplaceAbsent(n, p1, r1, k);
    ReplaceAtStart(n, p2, r2);
  }

  /** Neither pattern occurs. */
  lemma {:induction false} RenameNeither(n: string, p1: string, r1: string, p2: string, r2: string, k1: nat, k2: nat)
    requires k1 < |p1| && p1[k1] !in n
    requires k2 < |p2| && p2[k2] !in n
    ensures ReplaceFirst(ReplaceFirst(n, p1, r1), p2, r2) == n
  {
    ReplaceAbsent(n, p1, r1, k1);
    ReplaceAbsent(n, p2, r2, k2);
  }

  lemma ChennaiHallRenamed(n: string)
    requires n == "Chennai Corp. Community Hall"
    ensures ShelterRename(n) == "Miami Corp. Community Hall"
  {
    ChennaiHallFacts(n);
    RenameFirstOnly(n, "Chennai", "Miami", "Mahabalipuram", "Fort Lauderdale", 4);
  }

  lemma MahabalipuramSchoolRenamed(n: string)
    requires n == "Mahabalipuram Govt School"
    ensures ShelterRename(n) == "Fort Lauderdale Govt School"
  {
    MahabalipuramSchoolFacts(n);
    RenameSecondOnly(n, "Chennai", "Miami", "Mahabalipuram", "Fort Lauderdale", 0);
  }

  lemma KalpakkamBunkerKept(n: string)
    requires n == "Kalpakkam Safety Bunker"
    ensures ShelterRename(n) == n
  {
    RenameNeither(n, "Chennai", "Miami", "Mahabalipuram", "Fort Lauderdale", 0, 0);
  }

  lemma NorthChennaiRenamed(n: string)
    requires n == "North Chennai Thermal"
    ensures PlantRename(n) == "Turkey Point Nuclear Thermal"
  {
    RenameFirstOnly(n, "North Chennai", "Turkey Point Nuclear", "Neyveli", "Port St. Lucie", 3);
  }

  lemma MadrasAtomicKept(n: string)
    requires n == "MAPS (Madras Atomic)"
    ensures PlantRename(n) == n
  {
    RenameNeither(n, "North Chennai", "Turkey Point Nuclear", "Neyveli", "Port St. Lucie", 0, 0);
  }

  lemma NeyveliRenamed(n: string)
    requires n == "Neyveli Lignite Corp"
    ensures PlantRename(n) == "Port St. Lucie Lignite Corp"
  {
    NeyveliFacts(n);
    RenameSecondOnly(n, "North Chennai", "Turkey Point Nuclear", "Neyveli", "Port St. Lucie", 4);
  }

  // The literal facts each renaming needs, kept apart from the renaming.

  lemma ChennaiHallFacts(n: string)
    requires n == "Chennai Corp. Community Hall"
    ensures |"Chennai"| <= |n| && n[..|"Chennai"|] == "Chennai"
    ensures "Mahabalipuram"[4] !in "Miami" + n[|"Chennai"|..]
    ensures "Miami" + n[|"Chennai"|..] == "Miami Corp. Community Hall"
  {
    var rest := n[7..];
    ChennaiHallSplit(n, rest);
    assert 'b' !in "Miami";
    assert |"Chennai"| == 7 && "Mahabalipuram"[4] == 'b';
    MiamiHallJoin(rest);
  }

  lemma MiamiHallJoin(rest: string)
    requires rest == " Corp. Community Hall"
    ensures "Miami" + rest == "Miami Corp. Community Hall"
  {
  }

  lemma ChennaiHallSplit(n: string, rest: string)
    requires n == "Chennai Corp. Community Hall" && rest == n[7..]
    ensures n[..7] == "Chennai" && rest == " Corp. Community Hall" && 'b' !in rest
  {
  }

  lemma MahabalipuramSchoolFacts(n: string)
    requires n == "Mahabalipuram Govt School"
    ensures n[..13] == "Mahabalipuram" && "Fort Lauderdale" + n[13..] == "Fort Lauderdale Govt School"
    ensures 'C' !in n
  {
  }

  lemma NeyveliFacts(n: string)
    requires n == "Neyveli Lignite Corp"
    ensures n[..7] == "Neyveli" && "Port St. Lucie" + n[7..] == "Port St. Lucie Lignite Corp"
    ensures 'h' !in n
  {
  }

  /** The Florida shelters and plants carry the renamed names: the first
      occurrence of each Indian place name is replaced, other names kept. */
  lemma FloridaNames()
    ensures FLORIDA_SHELTERS[0].name == "Miami Corp. Community Hall"
    ensures FLORIDA_SHELTERS[1].name == "Fort Lauderdale Govt School"
    ensures FLORIDA_SHELTERS[2].name == SHELTERS[2].name
    ensures FLORIDA_POWER_PLANTS[0].name == "Turkey Point Nuclear Thermal"
    ensures FLORIDA_POWER_PLANTS[1].name == POWER_PLANTS[1].name
    ensures FLORIDA_POWER_PLANTS[2].name == "Port St. Lucie Lignite Corp"
  {
    FloridaShelterNames();
    FloridaPlantNames();
  }

  lemma FloridaShelterNames()
    ensures FLORIDA_SHELTERS[0].name == "Miami Corp. Community Hall"
    ensures FLORIDA_SHELTERS[1].name == "Fort Lauderdale Govt School"
    ensures FLORIDA_SHELTERS[2].name == SHELTERS[2].name
  {
    ChennaiHallRenamed(SHELTERS[0].name);
    MahabalipuramSchoolRenamed(SHELTERS[1].name);
    KalpakkamBunkerKept(SHELTERS[2].name);
  }

  lemma FloridaPlantNames()
    ensures FLORIDA_POWER_PLANTS[0].name == "Turkey Point Nuclear Thermal"
    ensures FLORIDA_POWER_PLANTS[1].name == POWER_PLANTS[1].name
    ensures FLORIDA_POWER_PLANTS[2].name == "Port St. Lucie Lignite Corp"
  {
    NorthChennaiRenamed(POWER_PLANTS[0].name);
    MadrasAtomicKept(POWER_PLANTS[1].name);
    NeyveliRenamed(POWER_PLANTS[2].name);
  }

  /** Reading the districts, shelters or track does not depend on the
      random draws. */
  lemma DataBesidesEnsembleIsDeterministic(basinId: string, n1: Noise, n2: Noise, m1: Noise, m2: Noise)
    ensures var a, b := GetSimulationData(basinId, n1, n2), GetSimulationData(basinId, m1, m2);
      a.track == b.track && a.districts == b.districts && a.shelters == b.shelters
  {
  }
}
