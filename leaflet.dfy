/**
 * The map's layer-update effect. Each run clears the layer group and adds
 * the layers the props call for: in compare mode the three benchmark tracks
 * and the error connectors, and nothing else; otherwise the flood zones,
 * ensemble paths, past and future track, the current position, earthquakes,
 * shelters, power plants and evacuation routes as their switches say, and
 * always one circle per district. A layer is recorded as a descriptor of
 * what is drawn; Leaflet's drawing, tiles, icons and view changes are not
 * part of this model.
 */
module MapLayers {
  import opened Types
  import opened Text
  import opened Constants

  // ---------------------------------------------------------------------
  // Layer descriptors
  // ---------------------------------------------------------------------

  /** Which of the effect's polylines a line is. */
  datatype LineRole = ImdObserved | LegacyModel | AetherModel | ErrorConnector | EnsemblePath
                    | PastTrack | FutureTrack | EvacRoute

  datatype RiskColour = Green | Yellow | Red

  datatype Layer =
    | Polyline(points: seq<Coordinate>, role: LineRole)
    | FloodPolygon(points: seq<Coordinate>, tooltip: string)
    | CycloneMarker(at: Coordinate, category: string, windSpeedKmph: int, pressureHpa: int)
    | QuakeMarker(at: Coordinate, magnitude: real, depthKm: real)
    | ShelterMarker(at: Coordinate, tooltip: string)
    | PlantMarker(at: Coordinate, tooltip: string)
    | DistrictCircle(district: DistrictRisk, colour: RiskColour, radius: int, fillOpacity: real,
                     tooltip: string, permanent: bool)

  /** The props the effect reads. */
  datatype MapProps = MapProps(
    track: seq<CycloneTrackPoint>,
    ensembles: seq<EnsembleMember>,
    districts: seq<DistrictRisk>,
    earthquakes: seq<Earthquake>,
    floodZones: seq<FloodZone>,
    shelters: seq<Shelter>,
    powerPlants: seq<PowerPlant>,
    evacRoutes: seq<EvacuationRoute>,
    currentTimeIndex: int,
    showEnsembles: bool,
    showEarthquakes: bool,
    showFloods: bool,
    showShelters: bool,
    showPowerPlants: bool,
    showEvacRoutes: bool,
    viewMode: MapViewMode,
    isCompareMode: bool)

  /** `Array.prototype.slice(start, end)`: negative bounds count from the
      end, and both are clamped to the array. */
  function SliceBound(len: nat, k: int): (r: nat)
    ensures r <= len
    ensures 0 <= k <= len ==> r == k
  {
    if k < 0 then (if len + k < 0 then 0 else len + k) else if k > len then len else k
  }

  function JsSlice<T>(s: seq<T>, start: int, end: int): (r: seq<T>)
    ensures 0 <= start <= end <= |s| ==> r == s[start..end]
    ensures 0 <= start <= |s| && end >= |s| ==> r == s[start..]
  {
    var from, to := SliceBound(|s|, start), SliceBound(|s|, end);
    if from <= to then s[from..to] else []
  }

  function Points(track: seq<CycloneTrackPoint>): (r: seq<Coordinate>)
    ensures |r| == |track| && forall i :: 0 <= i < |track| ==> r[i] == track[i].At()
  {
    seq(|track|, i requires 0 <= i < |track| => track[i].At())
  }

  // ---------------------------------------------------------------------
  // One layer per item
  // ---------------------------------------------------------------------

  /** The district colour bands: red above 8, yellow above 5, else green. */
  function RiskColourOf(score: real): (r: RiskColour)
    ensures r == Red <==> score > 8.0
    ensures r == Green <==> score <= 5.0
  {
    if score > 8.0 then Red else if score > 5.0 then Yellow else Green
  }

  function Rank(c: RiskColour): nat
  {
    match c
    case Green => 0
    case Yellow => 1
    case Red => 2
  }

  /** The bands are ordered: a higher score never gets a milder colour, and
      the band edges 5 and 8 belong to the lower band. */
  lemma RiskColourMonotone(a: real, b: real)
    requires a <= b
    ensures Rank(RiskColourOf(a)) <= Rank(RiskColourOf(b))
    ensures RiskColourOf(5.0) == Green && RiskColourOf(8.0) == Yellow
  {
  }

  function Circle(mode: MapViewMode, d: DistrictRisk): (r: Layer)
    ensures r.DistrictCircle? && r.district == d && r.colour == RiskColourOf(d.riskScore)
    ensures r.radius == (if mode == HeatmapView then 40000 else 20000)
    ensures r.fillOpacity == (if mode == HeatmapView then 0.4 else 0.2)
    ensures r.permanent <==> mode == ImpactView
  {
    var heat := mode == HeatmapView;
    DistrictCircle(d, RiskColourOf(d.riskScore), if heat then 40000 else 20000, if heat then 0.4 else 0.2,
                   d.name + ": " + NumberText(d.riskScore) + "/10", mode == ImpactView)
  }

  /** The district circle drawer for one view mode. */
  function CircleIn(mode: MapViewMode): DistrictRisk -> Layer
  {
    d => Circle(mode, d)
  }

  function FloodLayer(z: FloodZone): Layer
  {
    FloodPolygon(z.coordinates, "FLOOD ZONE: " + z.riskLevel.Text())
  }

  function EnsembleLayer(m: EnsembleMember): Layer
  {
    Polyline(m.path, EnsemblePath)
  }

  function QuakeLayer(e: Earthquake): Layer
  {
    QuakeMarker(Coordinate(e.lat, e.lng), e.magnitude, e.depthKm)
  }

  function ShelterLayer(s: Shelter): Layer
  {
    ShelterMarker(Coordinate(s.lat, s.lng), s.name)
  }

  function PlantLayer(p: PowerPlant): Layer
  {
    PlantMarker(Coordinate(p.lat, p.lng), p.name + " (" + p.kind.Text() + ")")
  }

  function RouteLayer(r: EvacuationRoute): Layer
  {
    Polyline(r.path, EvacRoute)
  }

  function Map<T>(xs: seq<T>, f: T -> Layer): (r: seq<Layer>)
    ensures |r| == |xs| && forall i :: 0 <= i < |xs| ==> r[i] == f(xs[i])
  {
    seq(|xs|, i requires 0 <= i < |xs| => f(xs[i]))
  }

  // ---------------------------------------------------------------------
  // What one run of the effect draws
  // ---------------------------------------------------------------------

  /** The error connectors: one line from each legacy fix to the observed
      fix at the same index, where there is one. */
  function Connectors(legacy: seq<Coordinate>, observed: seq<Coordinate>): (r: seq<Layer>)
    ensures |r| == if |legacy| <= |observed| then |legacy| else |observed|
    ensures forall i :: 0 <= i < |r| ==> r[i] == Polyline([legacy[i], observed[i]], ErrorConnector)
  {
    if |legacy| == 0 || |observed| == 0 then []
    else [Polyline([legacy[0], observed[0]], ErrorConnector)] + Connectors(legacy[1..], observed[1..])
  }

  /** The benchmark view: the observed track, the legacy model's track and
      the current model's track, then the error connectors. */
  function CompareLayers(track: seq<CycloneTrackPoint>, legacy: seq<Coordinate>, observed: seq<Coordinate>): (r: seq<Layer>)
    ensures |r| == 3 + (if |legacy| <= |observed| then |legacy| else |observed|)
    ensures r[0] == Polyline(observed, ImdObserved) && r[1] == Polyline(legacy, LegacyModel)
    ensures r[2] == Polyline(Points(track), AetherModel)
    ensures forall j :: 3 <= j < |r| ==> r[j] == Polyline([legacy[j - 3], observed[j - 3]], ErrorConnector)
    ensures forall j :: 0 <= j < |r| ==> r[j].Polyline?
  {
    [Polyline(observed, ImdObserved), Polyline(legacy, LegacyModel), Polyline(Points(track), AetherModel)]
      + Connectors(legacy, observed)
  }

  /** `track.slice(0, i + 1)` and `track.slice(i)`. */
  function PastSlice(track: seq<CycloneTrackPoint>, i: int): seq<CycloneTrackPoint>
  {
    JsSlice(track, 0, i + 1)
  }

  function FutureSlice(track: seq<CycloneTrackPoint>, i: int): seq<CycloneTrackPoint>
  {
    JsSlice(track, i, |track|)
  }

  /** Past and future are drawn only when non-empty. */
  function TrackLayers(track: seq<CycloneTrackPoint>, i: int): (r: seq<Layer>)
    ensures |r| <= 2 && forall j :: 0 <= j < |r| ==> r[j].Polyline? && (r[j].role == PastTrack || r[j].role == FutureTrack)
    ensures track == [] ==> r == []
    ensures 0 <= i < |track| ==>
      r == [Polyline(Points(track[..i + 1]), PastTrack), Polyline(Points(track[i..]), FutureTrack)]
  {
    var past, future := PastSlice(track, i), FutureSlice(track, i);
    (if |past| > 0 then [Polyline(Points(past), PastTrack)] else [])
      + (if |future| > 0 then [Polyline(Points(future), FutureTrack)] else [])
  }

  /** The pulsing marker, when `track[i]` exists. */
  function CurrentLayers(track: seq<CycloneTrackPoint>, i: int): (r: seq<Layer>)
    ensures |r| == (if 0 <= i < |track| then 1 else 0)
    ensures 0 <= i < |track| ==>
      r[0] == CycloneMarker(track[i].At(), track[i].category, track[i].windSpeedKmph, track[i].pressureHpa)
  {
    if 0 <= i < |track| then
      var p := track[i];
      [CycloneMarker(p.At(), p.category, p.windSpeedKmph, p.pressureHpa)]
    else []
  }

  function Gated<T>(on: bool, xs: seq<T>, f: T -> Layer): seq<Layer>
  {
    if on then Map(xs, f) else []
  }

  /** The nine groups of standard layers, in the order they are added. */
  datatype Parts = Parts(floods: seq<Layer>, ensembles: seq<Layer>, track: seq<Layer>, current: seq<Layer>,
                         quakes: seq<Layer>, shelters: seq<Layer>, plants: seq<Layer>, routes: seq<Layer>,
                         districts: seq<Layer>)

  function PartsOf(p: MapProps): Parts
  {
    Parts(Gated(p.showFloods, p.floodZones, FloodLayer),
          Gated(p.showEnsembles, p.ensembles, EnsembleLayer),
          TrackLayers(p.track, p.currentTimeIndex),
          CurrentLayers(p.track, p.currentTimeIndex),
          Gated(p.showEarthquakes, p.earthquakes, QuakeLayer),
          Gated(p.showShelters, p.shelters, ShelterLayer),
          Gated(p.showPowerPlants, p.powerPlants, PlantLayer),
          Gated(p.showEvacRoutes, p.evacRoutes, RouteLayer),
          Map(p.districts, CircleIn(p.viewMode)))
  }

  function Joined(q: Parts): seq<Layer>
  {
    q.floods + q.ensembles + q.track + q.current + q.quakes + q.shelters + q.plants + q.routes + q.districts
  }

  function StandardLayers(p: MapProps): seq<Layer>
  {
    Joined(PartsOf(p))
  }

  /** The layers one run of the effect leaves in the group. */
  function Layers(p: MapProps): (r: seq<Layer>)
    ensures p.isCompareMode ==> |r| == 11 && forall j :: 0 <= j < |r| ==> r[j].Polyline?
    ensures !p.isCompareMode ==> |r| >= |p.districts| && r[|r| - |p.districts|..] == Map(p.districts, CircleIn(p.viewMode))
  {
    BenchmarkLengths();
    var q := PartsOf(p);
    var before := q.floods + q.ensembles + q.track + q.current + q.quakes + q.shelters + q.plants + q.routes;
    assert Joined(q) == before + q.districts;
    assert (before + q.districts)[|before|..] == q.districts;
    if p.isCompareMode then CompareLayers(p.track, LEGACY_MODEL_TRACK, IMD_OBSERVED_TRACK) else StandardLayers(p)
  }

  // ---------------------------------------------------------------------
  // Properties of the layer selection
  // ---------------------------------------------------------------------

  /** The kinds of layer, to count them by. */
  datatype Kind = LineKind(role: LineRole) | FloodKind | CycloneKind | QuakeKind | ShelterMarkKind | PlantMarkKind | DistrictKind

  function KindOf(l: Layer): Kind
  {
    match l
    case Polyline(_, role) => LineKind(role)
    case FloodPolygon(_, _) => FloodKind
    case CycloneMarker(_, _, _, _) => CycloneKind
    case QuakeMarker(_, _, _) => QuakeKind
    case ShelterMarker(_, _) => ShelterMarkKind
    case PlantMarker(_, _) => PlantMarkKind
    case DistrictCircle(_, _, _, _, _, _) => DistrictKind
  }

  /** The layers of one kind, in drawing order. */
  function Of(layers: seq<Layer>, k: Kind): (r: seq<Layer>)
    ensures |r| <= |layers|
  {
    if |layers| == 0 then []
    else (if KindOf(layers[0]) == k then [layers[0]] else []) + Of(layers[1..], k)
  }

  lemma {:induction false} OfConcat(a: seq<Layer>, b: seq<Layer>, k: Kind)
    ensures Of(a + b, k) == Of(a, k) + Of(b, k)
    decreases |a|
  {
    if |a| == 0 {
      assert a + b == b;
    } else {
      var head := if KindOf(a[0]) == k then [a[0]] else [];
      assert (a + b)[0] == a[0];
      assert (a + b)[1..] == a[1..] + b;
      OfConcat(a[1..], b, k);
      calc {
        Of(a + b, k);
        head + Of(a[1..] + b, k);
        head + (Of(a[1..], k) + Of(b, k));
        head + Of(a[1..], k) + Of(b, k);
      }
    }
  }

  /** Selecting a kind from layers that all have it keeps them all; from
      layers none of which has it keeps none. */
  lemma {:induction false} OfAll(layers: seq<Layer>, k: Kind)
    requires forall i :: 0 <= i < |layers| ==> KindOf(layers[i]) == k
    ensures Of(layers, k) == layers
    decreases |layers|
  {
    if |layers| > 0 {
      OfAll(layers[1..], k);
    }
  }

  lemma {:induction false} OfNone(layers: seq<Layer>, k: Kind)
    requires forall i :: 0 <= i < |layers| ==> KindOf(layers[i]) != k
    ensures Of(layers, k) == []
    decreases |layers|
  {
    if |layers| > 0 {
      OfNone(layers[1..], k);
    }
  }

  /** The benchmark view for tracks of equal length: the three tracks and
      one connector per shared index, all of them lines of the compare-mode
      roles. */
  lemma CompareShape(track: seq<CycloneTrackPoint>, legacy: seq<Coordinate>, observed: seq<Coordinate>)
    requires |legacy| == |observed|
    ensures var ls := CompareLayers(track, legacy, observed);
      && |ls| == 3 + |legacy|
      && ls[..3] == [Polyline(observed, ImdObserved), Polyline(legacy, LegacyModel), Polyline(Points(track), AetherModel)]
      && (forall i :: 3 <= i < |ls| ==> ls[i] == Polyline([legacy[i - 3], observed[i - 3]], ErrorConnector))
      && (forall l :: l in ls ==> l.Polyline? && l.role in {ImdObserved, LegacyModel, AetherModel, ErrorConnector})
  {
    var ls := CompareLayers(track, legacy, observed);
    forall l | l in ls
      ensures l.Polyline? && l.role in {ImdObserved, LegacyModel, AetherModel, ErrorConnector}
    {
      var i :| 0 <= i < |ls| && ls[i] == l;
      if i >= 3 {
        assert ls[i] == Connectors(legacy, observed)[i - 3];
      }
    }
  }

  lemma BenchmarkLengths()
    ensures |LEGACY_MODEL_TRACK| == |IMD_OBSERVED_TRACK| == 8
  {
  }

  /** Compare mode draws the observed, legacy and model tracks and the eight
      connectors between the legacy and observed fixes, and none of the
      standard layers, whatever the switches say. */
  lemma CompareModeOnly(p: MapProps)
    requires p.isCompareMode
    ensures Layers(p) == CompareLayers(p.track, LEGACY_MODEL_TRACK, IMD_OBSERVED_TRACK)
    ensures |Layers(p)| == 11
    ensures forall l :: l in Layers(p) ==> l.Polyline? && l.role in {ImdObserved, LegacyModel, AetherModel, ErrorConnector}
  {
    BenchmarkLengths();
    CompareShape(p.track, LEGACY_MODEL_TRACK, IMD_OBSERVED_TRACK);
  }

  /** Each part holds layers of its own kind only; the track part holds
      past and future lines. */
  predicate WellKinded(q: Parts)
  {
    && (forall i :: 0 <= i < |q.floods| ==> KindOf(q.floods[i]) == FloodKind)
    && (forall i :: 0 <= i < |q.ensembles| ==> KindOf(q.ensembles[i]) == LineKind(EnsemblePath))
    && (forall i :: 0 <= i < |q.track| ==> KindOf(q.track[i]) in {LineKind(PastTrack), LineKind(FutureTrack)})
    && (forall i :: 0 <= i < |q.current| ==> KindOf(q.current[i]) == CycloneKind)
    && (forall i :: 0 <= i < |q.quakes| ==> KindOf(q.quakes[i]) == QuakeKind)
    && (forall i :: 0 <= i < |q.shelters| ==> KindOf(q.shelters[i]) == ShelterMarkKind)
    && (forall i :: 0 <= i < |q.plants| ==> KindOf(q.plants[i]) == PlantMarkKind)
    && (forall i :: 0 <= i < |q.routes| ==> KindOf(q.routes[i]) == LineKind(EvacRoute))
    && (forall i :: 0 <= i < |q.districts| ==> KindOf(q.districts[i]) == DistrictKind)
  }

  /** The parts that hold a kind, in drawing order: each kind but the
      track lines has its own part, the past and future lines share the
      track part, and no part holds the compare-mode lines. */
  function Pick(q: Parts, k: Kind): seq<Layer>
  {
    (if k == FloodKind then q.floods else []) + (if k == LineKind(EnsemblePath) then q.ensembles else [])
      + (if k == LineKind(PastTrack) || k == LineKind(FutureTrack) then Of(q.track, k) else [])
      + (if k == CycloneKind then q.current else []) + (if k == QuakeKind then q.quakes else [])
      + (if k == ShelterMarkKind then q.shelters else []) + (if k == PlantMarkKind then q.plants else [])
      + (if k == LineKind(EvacRoute) then q.routes else []) + (if k == DistrictKind then q.districts else [])
  }

  /** Selecting a kind from the joined parts selects it part by part. */
  lemma JoinedByKind(q: Parts, k: Kind)
    requires WellKinded(q)
    ensures Of(Joined(q), k) == Pick(q, k)
  {
    OfNine(q.floods, q.ensembles, q.track, q.current, q.quakes, q.shelters, q.plants, q.routes, q.districts, k);
    OfOneKind(q.floods, FloodKind, k);
    OfOneKind(q.ensembles, LineKind(EnsemblePath), k);
    OfOneKind(q.current, CycloneKind, k);
    OfOneKind(q.quakes, QuakeKind, k);
    OfOneKind(q.shelters, ShelterMarkKind, k);
    OfOneKind(q.plants, PlantMarkKind, k);
    OfOneKind(q.routes, LineKind(EvacRoute), k);
    OfOneKind(q.districts, DistrictKind, k);
    if k != LineKind(PastTrack) && k != LineKind(FutureTrack) {
      OfNone(q.track, k);
    }
  }

  lemma PartsOfWellKinded(p: MapProps)
    ensures WellKinded(PartsOf(p))
  {
    GatedKinds(p.showFloods, p.floodZones, FloodLayer, FloodKind);
    GatedKinds(p.showEnsembles, p.ensembles, EnsembleLayer, LineKind(EnsemblePath));
    TrackKinds(p.track, p.currentTimeIndex);
    CurrentKinds(p.track, p.currentTimeIndex);
    GatedKinds(p.showEarthquakes, p.earthquakes, QuakeLayer, QuakeKind);
    GatedKinds(p.showShelters, p.shelters, ShelterLayer, ShelterMarkKind);
    GatedKinds(p.showPowerPlants, p.powerPlants, PlantLayer, PlantMarkKind);
    GatedKinds(p.showEvacRoutes, p.evacRoutes, RouteLayer, LineKind(EvacRoute));
    GatedKinds(true, p.districts, CircleIn(p.viewMode), DistrictKind);
  }

  lemma GatedKinds<T>(on: bool, xs: seq<T>, f: T -> Layer, kind: Kind)
    requires forall x :: KindOf(f(x)) == kind
    ensures forall i :: 0 <= i < |Gated(on, xs, f)| ==> KindOf(Gated(on, xs, f)[i]) == kind
  {
  }

  lemma TrackKinds(track: seq<CycloneTrackPoint>, i: int)
    ensures forall j :: 0 <= j < |TrackLayers(track, i)| ==>
      KindOf(TrackLayers(track, i)[j]) in {LineKind(PastTrack), LineKind(FutureTrack)}
  {
  }

  lemma CurrentKinds(track: seq<CycloneTrackPoint>, i: int)
    ensures forall j :: 0 <= j < |CurrentLayers(track, i)| ==> KindOf(CurrentLayers(track, i)[j]) == CycloneKind
  {
  }

  /** In standard mode the layers of each kind are exactly its part: each
      switchable kind item by item when its switch is on and none when it
      is off, one circle per district, the current marker when the index
      is on the track, and none of the compare-mode lines. */
  lemma StandardLayersByKind(p: MapProps, k: Kind)
    requires !p.isCompareMode
    ensures Of(Layers(p), k) == Pick(PartsOf(p), k)
  {
    PartsOfWellKinded(p);
    JoinedByKind(PartsOf(p), k);
  }

  /** Selecting from the nine parts of the standard layers selects from
      each part. */
  lemma OfNine(g1: seq<Layer>, g2: seq<Layer>, t: seq<Layer>, c: seq<Layer>, g5: seq<Layer>,
               g6: seq<Layer>, g7: seq<Layer>, g8: seq<Layer>, m: seq<Layer>, k: Kind)
    ensures Of(g1 + g2 + t + c + g5 + g6 + g7 + g8 + m, k)
         == Of(g1, k) + Of(g2, k) + Of(t, k) + Of(c, k) + Of(g5, k) + Of(g6, k) + Of(g7, k) + Of(g8, k) + Of(m, k)
  {
    OfConcat(g1, g2, k);
    OfConcat(g1 + g2, t, k);
    OfConcat(g1 + g2 + t, c, k);
    OfConcat(g1 + g2 + t + c, g5, k);
    OfConcat(g1 + g2 + t + c + g5, g6, k);
    OfConcat(g1 + g2 + t + c + g5 + g6, g7, k);
    OfConcat(g1 + g2 + t + c + g5 + g6 + g7, g8, k);
    OfConcat(g1 + g2 + t + c + g5 + g6 + g7 + g8, m, k);
  }

  /** Layers all of one kind are kept whole by that kind and dropped by any
      other. */
  lemma OfOneKind(layers: seq<Layer>, kind: Kind, k: Kind)
    requires forall i :: 0 <= i < |layers| ==> KindOf(layers[i]) == kind
    ensures Of(layers, k) == if k == kind then layers else []
  {
    if k == kind {
      OfAll(layers, k);
    } else {
      OfNone(layers, k);
    }
  }

  /** Past and future: for an index on the track the two slices are drawn,
      share exactly the current fix, and together cover the track. */
  lemma PastAndFutureOverlap(track: seq<CycloneTrackPoint>, i: int)
    requires 0 <= i < |track|
    ensures PastSlice(track, i) == track[..i + 1] && FutureSlice(track, i) == track[i..]
    ensures PastSlice(track, i)[i] == FutureSlice(track, i)[0] == track[i]
    ensures PastSlice(track, i) + FutureSlice(track, i)[1..] == track
    ensures TrackLayers(track, i) == [Polyline(Points(track[..i + 1]), PastTrack), Polyline(Points(track[i..]), FutureTrack)]
  {
    assert track[..i + 1] + track[i..][1..] == track;
  }

  /** The current-position marker is drawn exactly when the index is a fix
      of the track, at that fix. */
  lemma CurrentMarkerIffOnTrack(p: MapProps)
    requires !p.isCompareMode
    ensures |Of(Layers(p), CycloneKind)| == (if 0 <= p.currentTimeIndex < |p.track| then 1 else 0)
    ensures 0 <= p.currentTimeIndex < |p.track| ==>
      var fix := p.track[p.currentTimeIndex];
      Of(Layers(p), CycloneKind) == [CycloneMarker(fix.At(), fix.category, fix.windSpeedKmph, fix.pressureHpa)]
  {
    StandardLayersByKind(p, CycloneKind);
  }

  /** Switching a layer off removes all its items; switching it on draws
      one per item. */
  lemma SwitchesGateLayers(p: MapProps)
    requires !p.isCompareMode
    ensures |Of(Layers(p), FloodKind)| == (if p.showFloods then |p.floodZones| else 0)
    ensures |Of(Layers(p), QuakeKind)| == (if p.showEarthquakes then |p.earthquakes| else 0)
    ensures |Of(Layers(p), ShelterMarkKind)| == (if p.showShelters then |p.shelters| else 0)
    ensures |Of(Layers(p), PlantMarkKind)| == (if p.showPowerPlants then |p.powerPlants| else 0)
    ensures |Of(Layers(p), LineKind(EnsemblePath))| == (if p.showEnsembles then |p.ensembles| else 0)
    ensures |Of(Layers(p), LineKind(EvacRoute))| == (if p.showEvacRoutes then |p.evacRoutes| else 0)
    ensures Of(Layers(p), DistrictKind) == Map(p.districts, CircleIn(p.viewMode))
  {
    StandardLayersByKind(p, FloodKind);
    StandardLayersByKind(p, QuakeKind);
    StandardLayersByKind(p, ShelterMarkKind);
    StandardLayersByKind(p, PlantMarkKind);
    StandardLayersByKind(p, LineKind(EnsemblePath));
    StandardLayersByKind(p, LineKind(EvacRoute));
    StandardLayersByKind(p, DistrictKind);
  }

  // ---------------------------------------------------------------------
  // The layer group
  // ---------------------------------------------------------------------

  /** The map's layer group, once the map is created. */
  class LayerGroup {
    /** Whether the map and its layer group exist yet. */
    var ready: bool
    /** The layers in the group, in the order they were added. */
    var layers: seq<Layer>

    constructor ()
      ensures !ready && layers == []
    {
      ready := false;
      layers := [];
    }

    /** The map initialisation effect. */
    method Init()
      modifies this
      ensures ready && layers == []
    {
      ready := true;
      layers := [];
    }

    /** `layerGroup.clearLayers()`. */
    method Clear()
      modifies this`layers
      ensures layers == []
    {
      layers := [];
    }

    /** `xs.forEach(x => f(x).addTo(layerGroup))`. */
    method AddEach<T>(xs: seq<T>, f: T -> Layer)
      modifies this`layers
      ensures layers == old(layers) + Map(xs, f)
    {
      var i := 0;
      while i < |xs|
        invariant 0 <= i <= |xs|
        invariant layers == old(layers) + Map(xs[..i], f)
      {
        assert Map(xs[..i + 1], f) == Map(xs[..i], f) + [f(xs[i])];
        layers := layers + [f(xs[i])];
        i := i + 1;
      }
      assert xs[..i] == xs;
    }

    /** The error connectors' `forEach` over the legacy track, drawing where
        the observed track has a fix at the same index. */
    method AddConnectors(legacy: seq<Coordinate>, observed: seq<Coordinate>)
      modifies this`layers
      ensures layers == old(layers) + Connectors(legacy, observed)
    {
      var i := 0;
      while i < |legacy|
        invariant 0 <= i <= |legacy|
        invariant layers == old(layers) + Connectors(legacy[..i], observed)
      {
        ConnectorsStep(legacy, observed, i);
        if i < |observed| {
          layers := layers + [Polyline([legacy[i], observed[i]], ErrorConnector)];
        }
        i := i + 1;
      }
      assert legacy[..i] == legacy;
    }

    /** `if (on) xs.forEach(...)`. */
    method AddGated<T>(on: bool, xs: seq<T>, f: T -> Layer)
      modifies this`layers
      ensures layers == old(layers) + Gated(on, xs, f)
    {
      if on {
        AddEach(xs, f);
      }
    }

    /** The compare-mode branch. */
    method AddCompare(track: seq<CycloneTrackPoint>, legacy: seq<Coordinate>, observed: seq<Coordinate>)
      modifies this`layers
      ensures layers == old(layers) + CompareLayers(track, legacy, observed)
    {
      layers := layers + [Polyline(observed, ImdObserved)];
      layers := layers + [Polyline(legacy, LegacyModel)];
      layers := layers + [Polyline(Points(track), AetherModel)];
      AddConnectors(legacy, observed);
    }

    /** One track polyline, drawn only when it has a fix. */
    method AddTrackLine(points: seq<CycloneTrackPoint>, role: LineRole)
      modifies this`layers
      ensures layers == old(layers) + (if |points| > 0 then [Polyline(Points(points), role)] else [])
    {
      if |points| > 0 {
        layers := layers + [Polyline(Points(points), role)];
      }
    }

    /** The past and future track, each when non-empty. */
    method AddTrack(track: seq<CycloneTrackPoint>, i: int)
      modifies this`layers
      ensures layers == old(layers) + TrackLayers(track, i)
    {
      ghost var start := layers;
      var past := JsSlice(track, 0, i + 1);
      var future := JsSlice(track, i, |track|);
      AddTrackLine(past, PastTrack);
      ghost var added := if |past| > 0 then [Polyline(Points(past), PastTrack)] else [];
      AddTrackLine(future, FutureTrack);
      AppendAssoc(start, added, if |future| > 0 then [Polyline(Points(future), FutureTrack)] else []);
    }

    /** The current-position marker, when the index is a fix of the track. */
    method AddCurrent(track: seq<CycloneTrackPoint>, i: int)
      modifies this`layers
      ensures layers == old(layers) + CurrentLayers(track, i)
    {
      if 0 <= i < |track| {
        var pos := track[i];
        layers := layers + [CycloneMarker(pos.At(), pos.category, pos.windSpeedKmph, pos.pressureHpa)];
      }
    }

    /** The standard branch, part by part. */
    method AddStandard(p: MapProps)
      modifies this`layers
      ensures layers == old(layers) + StandardLayers(p)
    {
      ghost var q := PartsOf(p);
      ghost var start := layers;
      AddGated(p.showFloods, p.floodZones, FloodLayer);
      ghost var added := q.floods;
      AddGated(p.showEnsembles, p.ensembles, EnsembleLayer);
      AppendAssoc(start, added, q.ensembles);
      added := added + q.ensembles;
      AddTrack(p.track, p.currentTimeIndex);
      AppendAssoc(start, added, q.track);
      added := added + q.track;
      AddCurrent(p.track, p.currentTimeIndex);
      AppendAssoc(start, added, q.current);
      added := added + q.current;
      AddGated(p.showEarthquakes, p.earthquakes, QuakeLayer);
      AppendAssoc(start, added, q.quakes);
      added := added + q.quakes;
      AddGated(p.showShelters, p.shelters, ShelterLayer);
      AppendAssoc(start, added, q.shelters);
      added := added + q.shelters;
      AddGated(p.showPowerPlants, p.powerPlants, PlantLayer);
      AppendAssoc(start, added, q.plants);
      added := added + q.plants;
      AddGated(p.showEvacRoutes, p.evacRoutes, RouteLayer);
      AppendAssoc(start, added, q.routes);
      added := added + q.routes;
      AddEach(p.districts, CircleIn(p.viewMode));
      AppendAssoc(start, added, q.districts);
      added := added + q.districts;
      assert added == Joined(q);
    }

    /** The layer-update effect: nothing before the map exists; otherwise
        clear the group and add what the props call for, so that whatever
        was drawn before, the group holds exactly `Layers(p)`. */
    method UpdateLayers(p: MapProps)
      modifies this`layers
      ensures !ready ==> layers == old(layers)
      ensures ready ==> layers == Layers(p)
    {
      if !ready {
        return;
      }
      Clear();
      if p.isCompareMode {
        AddCompare(p.track, LEGACY_MODEL_TRACK, IMD_OBSERVED_TRACK);
      } else {
        AddStandard(p);
      }
    }
  }

  lemma AppendAssoc(a: seq<Layer>, b: seq<Layer>, c: seq<Layer>)
    ensures a + b + c == a + (b + c)
  {
  }

  /** One more legacy fix adds its connector when the observed track
      reaches that far. */
  lemma {:induction false} ConnectorsStep(legacy: seq<Coordinate>, observed: seq<Coordinate>, i: nat)
    requires i < |legacy|
    ensures Connectors(legacy[..i + 1], observed) ==
      Connectors(legacy[..i], observed) + (if i < |observed| then [Polyline([legacy[i], observed[i]], ErrorConnector)] else [])
  {
    var a, b := Connectors(legacy[..i + 1], observed), Connectors(legacy[..i], observed);
    if i < |observed| {
      var c := b + [Polyline([legacy[i], observed[i]], ErrorConnector)];
      assert |a| == i + 1 == |c|;
      forall j | 0 <= j < i + 1
        ensures a[j] == c[j]
      {
        assert legacy[..i + 1][j] == legacy[j];
        if j < i {
          assert legacy[..i][j] == legacy[j];
        }
      }
    } else {
      assert |a| == |observed| == |b|;
      forall j | 0 <= j < |a|
        ensures a[j] == b[j]
      {
        assert legacy[..i + 1][j] == legacy[j] == legacy[..i][j];
      }
    }
  }
}
