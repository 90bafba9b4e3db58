/**
 * The application shell: the active location (basin, country, region), the
 * basin's simulation data and map centre, the playback position, the layer
 * switches, and the location picker's pending fields. React effects run
 * right after the handler whose state change triggers them: the location
 * effect whenever the basin, country or region changed, the picker's sync
 * effect whenever the picker is open and it or the active location changed.
 * The ensemble draws of each data load are a `Noise` parameter.
 */
module Shell {
  import opened Types
  import opened Constants
  import opened Timeline

  // ---------------------------------------------------------------------
  // Derived values
  // ---------------------------------------------------------------------

  /** `basins.findIndex(b => b.id === id)` as an option. */
  function FindBasinIn(basins: seq<Basin>, id: string): (r: Option<nat>)
    ensures r.Some? ==> r.value < |basins| && basins[r.value].id == id
    ensures r.Some? ==> forall j :: 0 <= j < r.value ==> basins[j].id != id
    ensures r.None? <==> forall j :: 0 <= j < |basins| ==> basins[j].id != id
  {
    if |basins| == 0 then None
    else if basins[0].id == id then Some(0)
    else
      var k := FindBasinIn(basins[1..], id);
      if k.None? then None else Some(k.value + 1)
  }

  /** `GLOBAL_BASINS.find(b => b.id === id) || GLOBAL_BASINS[0]`. */
  function FindBasin(id: string): (r: Basin)
    ensures (exists j :: 0 <= j < |GLOBAL_BASINS| && GLOBAL_BASINS[j].id == id) ==> r.id == id && r in GLOBAL_BASINS
    ensures (forall j :: 0 <= j < |GLOBAL_BASINS| ==> GLOBAL_BASINS[j].id != id) ==> r == GLOBAL_BASINS[0]
  {
    var k := FindBasinIn(GLOBAL_BASINS, id);
    if k.Some? then GLOBAL_BASINS[k.value] else GLOBAL_BASINS[0]
  }

  /** The registry's ids are distinct. */
  lemma BasinIdsDistinct()
    ensures forall i, j :: 0 <= i < j < |GLOBAL_BASINS| ==> GLOBAL_BASINS[i].id != GLOBAL_BASINS[j].id
  {
  }

  /** Every registered id shows its own basin. */
  lemma FindBasinOwn(j: nat)
    requires j < |GLOBAL_BASINS|
    ensures FindBasin(GLOBAL_BASINS[j].id) == GLOBAL_BASINS[j]
  {
    BasinIdsDistinct();
    var k := FindBasinIn(GLOBAL_BASINS, GLOBAL_BASINS[j].id);
    assert k.Some? && k.value <= j;
  }

  /** An unknown id shows the North Indian basin. */
  lemma FindBasinFallback(id: string)
    requires forall b :: b in GLOBAL_BASINS ==> b.id != id
    ensures FindBasin(id).id == "ni"
  {
  }

  /** The centring rule: the region's centre, else the country's, else the
      middle fix of the track, else the basin's default centre. An empty
      string is falsy and skips its step. */
  function CenterFor(region: string, country: string, track: seq<CycloneTrackPoint>, basinId: string): (r: Coordinate)
    ensures region != "" && region in REGION_CENTERS ==> r == REGION_CENTERS[region]
    ensures !(region != "" && region in REGION_CENTERS) && country != "" && country in REGION_CENTERS ==>
      r == REGION_CENTERS[country]
    ensures !(region != "" && region in REGION_CENTERS) && !(country != "" && country in REGION_CENTERS) ==>
      r == (if |track| > 0 then track[|track| / 2].At() else FindBasin(basinId).defaultCenter)
  {
    if region != "" && region in REGION_CENTERS then REGION_CENTERS[region]
    else if country != "" && country in REGION_CENTERS then REGION_CENTERS[country]
    else if |track| > 0 then
      var mid := track[|track| / 2];
      Coordinate(mid.lat, mid.lng)
    else FindBasin(basinId).defaultCenter
  }

  /** `pendingCountry && MOCK_REGIONS[pendingCountry] ? ... : ['Region A', 'Region B']`. */
  function RegionOptions(country: string): (r: seq<string>)
    ensures country != "" && country in MOCK_REGIONS ==> r == MOCK_REGIONS[country]
    ensures !(country != "" && country in MOCK_REGIONS) ==> r == ["Region A", "Region B"]
  {
    if country != "" && country in MOCK_REGIONS then MOCK_REGIONS[country] else ["Region A", "Region B"]
  }

  /** Picking any offered region of a known country centres the map on that
      region, whatever the basin and its track. */
  lemma OfferedRegionCentres(country: string, i: nat, track: seq<CycloneTrackPoint>, basinId: string)
    requires country in MOCK_REGIONS && country != "" && i < |RegionOptions(country)|
    ensures var region := RegionOptions(country)[i];
      region in REGION_CENTERS && CenterFor(region, country, track, basinId) == REGION_CENTERS[region]
  {
    var region := RegionOptions(country)[i];
    RegionsHaveCentres();
    RegionNamesNonEmpty();
    assert region == MOCK_REGIONS[country][i];
    assert region != "" && region in REGION_CENTERS;
  }

  /** With nothing chosen, the map centres on the middle fix of the basin's
      track, or on the basin's default centre for a basin without data. */
  lemma CentreWithoutChoice(basinId: string, loadNoise: Noise, callNoise: Noise)
    ensures var data := GetSimulationData(basinId, loadNoise, callNoise);
      && (basinId == "ni" ==> CenterFor("", "", data.track, basinId) == CYCLONE_TRACK[7].At())
      && (basinId == "na" ==> CenterFor("", "", data.track, basinId) == Coordinate(CYCLONE_TRACK[7].lat + 13.0, CYCLONE_TRACK[7].lng - 160.0))
      && (basinId != "ni" && basinId != "na" ==> CenterFor("", "", data.track, basinId) == FindBasin(basinId).defaultCenter)
  {
    var track := GetSimulationData(basinId, loadNoise, callNoise).track;
    if basinId == "ni" {
      NorthIndianIsBase(loadNoise, callNoise);
      TrackMiddle(track, CYCLONE_TRACK);
    } else if basinId == "na" {
      NorthAtlanticIsShifted(loadNoise, callNoise);
      TrackMiddle(track, CYCLONE_TRACK);
    } else {
      OtherBasinsAreEmpty(basinId, loadNoise, callNoise);
    }
  }

  /** A track as long as the base track has its middle fix at index 7. */
  lemma TrackMiddle(track: seq<CycloneTrackPoint>, base: seq<CycloneTrackPoint>)
    requires base == CYCLONE_TRACK && |track| == |base|
    ensures |track| == 15 && |track| / 2 == 7
  {
    ForecastIsSuffix();
  }

  // ---------------------------------------------------------------------
  // Playback
  // ---------------------------------------------------------------------

  datatype TickResult = TickResult(index: int, playing: bool)

  /** One firing of the playback interval: at or past the last fix playback
      stops and the index stays; otherwise the index advances by one. */
  function TickStep(prev: int, len: nat): (r: TickResult)
    ensures r.playing <==> prev < len - 1
    ensures r.index == if r.playing then prev + 1 else prev
  {
    if prev >= len - 1 then TickResult(prev, false) else TickResult(prev + 1, true)
  }

  /** The state after `k` firings from `prev` with playback on; once stopped
      the interval is cleared and nothing fires. */
  function Ticks(prev: int, len: nat, k: nat): TickResult
  {
    if k == 0 then TickResult(prev, true)
    else
      var s := Ticks(prev, len, k - 1);
      if !s.playing then s else TickStep(s.index, len)
  }

  /** From a position on the track, `k` firings reach position
      `min(prev + k, len - 1)`, and playback is still on exactly when the
      last fix has not been passed: the index never goes beyond the last
      fix. */
  lemma {:induction false} PlaybackStopsAtEnd(prev: int, len: nat, k: nat)
    requires 0 <= prev <= len - 1
    ensures Ticks(prev, len, k) == TickResult(if prev + k <= len - 1 then prev + k else len - 1, prev + k <= len - 1)
    decreases k
  {
    if k > 0 {
      PlaybackStopsAtEnd(prev, len, k - 1);
    }
  }

  // ---------------------------------------------------------------------
  // The component state
  // ---------------------------------------------------------------------

  datatype LayerSwitch = Ensembles | Earthquakes | Floods | Shelters | PowerPlants | EvacRoutes

  class AppState {
    /** The draws of the ensemble built when the data module loads. */
    const loadNoise: Noise
    /** `getSimulationData` and the centring rule, fixed when the component
        is created and called through these two values. */
    const load: (string, Noise, Noise) -> SimulationData
    const centre: (string, string, seq<CycloneTrackPoint>, string) -> Coordinate

    var activeBasinId: string
    var activeCountry: string
    var activeRegion: string
    var simData: SimulationData
    var mapCenter: Coordinate
    var currentTimeIndex: int
    var isPlaying: bool
    var selectedDistrict: Option<DistrictRisk>
    var viewMode: MapViewMode
    var showEnsembles: bool
    var showEarthquakes: bool
    var showFloods: bool
    var showShelters: bool
    var showPowerPlants: bool
    var showEvacRoutes: bool
    var isCompareMode: bool
    var showDashboard: bool
    var showCarbonTracker: bool
    var showLocationModal: bool
    var detectingLoc: bool
    var pendingBasinId: string
    var pendingCountry: string
    var pendingRegion: string

    /** The basin shown in the header. */
    function ActiveBasin(): Basin
      reads this
    {
      FindBasin(activeBasinId)
    }

    /** The basin whose countries the picker offers. */
    function PendingBasin(): Basin
      reads this
    {
      FindBasin(pendingBasinId)
    }

    /** The picker's confirm button is disabled without a country. */
    predicate ConfirmDisabled()
      reads this
    {
      pendingCountry == ""
    }

    /** The timeline is hidden in compare mode. */
    predicate TimelineShown()
      reads this
    {
      !isCompareMode
    }

    /** The playback position is a fix of the track (or 0 on an empty
        track). */
    predicate IndexInRange()
      reads this
    {
      0 <= currentTimeIndex && (currentTimeIndex == 0 || currentTimeIndex <= |simData.track| - 1)
    }

    /** The first render with its mount effects: North Indian data, centred
        on the middle of its track, playback stopped at the first fix. */
    constructor (loadNoise: Noise, callNoise: Noise)
      ensures this.loadNoise == loadNoise
      ensures load == GetSimulationData && centre == CenterFor
      ensures activeBasinId == "ni" && activeCountry == "" && activeRegion == ""
      ensures simData == GetSimulationData("ni", loadNoise, callNoise)
      ensures mapCenter == CenterFor("", "", simData.track, "ni")
      ensures currentTimeIndex == 0 && !isPlaying && selectedDistrict.None? && IndexInRange()
      ensures viewMode == TrackView && showEnsembles && showEarthquakes && showFloods
      ensures !showShelters && !showPowerPlants && !showEvacRoutes
      ensures !isCompareMode && !showDashboard && !showCarbonTracker && !showLocationModal && !detectingLoc
      ensures pendingBasinId == "ni" && pendingCountry == "" && pendingRegion == ""
    {
      this.loadNoise := loadNoise;
      load := GetSimulationData;
      centre := CenterFor;
      activeBasinId := "ni";
      activeCountry := "";
      activeRegion := "";
      simData := GetSimulationData("ni", loadNoise, callNoise);
      mapCenter := CenterFor("", "", GetSimulationData("ni", loadNoise, callNoise).track, "ni");
      currentTimeIndex := 0;
      isPlaying := false;
      selectedDistrict := None;
      viewMode := TrackView;
      showEnsembles := true;
      showEarthquakes := true;
      showFloods := true;
      showShelters := false;
      showPowerPlants := false;
      showEvacRoutes := false;
      isCompareMode := false;
      showDashboard := false;
      showCarbonTracker := false;
      showLocationModal := false;
      detectingLoc := false;
      pendingBasinId := "ni";
      pendingCountry := "";
      pendingRegion := "";
    }

    /** What the location effect leaves: the active basin's data, the map
        centred by the centring rule, playback stopped at the first fix and
        no district selected. */
    predicate Reloaded(callNoise: Noise)
      reads this`simData, this`activeBasinId, this`activeCountry, this`activeRegion, this`mapCenter
      reads this`currentTimeIndex, this`isPlaying, this`selectedDistrict
    {
      && simData == load(activeBasinId, loadNoise, callNoise)
      && mapCenter == centre(activeRegion, activeCountry, simData.track, activeBasinId)
      && currentTimeIndex == 0 && !isPlaying && selectedDistrict.None?
    }

    /** The effect on the active location: reload the data, re-centre, and
        reset playback and the selected district. */
    method LocationEffect(callNoise: Noise)
      modifies this`simData, this`mapCenter, this`currentTimeIndex, this`isPlaying, this`selectedDistrict
      ensures Reloaded(callNoise) && IndexInRange()
    {
      var data := load(activeBasinId, loadNoise, callNoise);
      simData := data;
      mapCenter := centre(activeRegion, activeCountry, data.track, activeBasinId);
      currentTimeIndex := 0;
      isPlaying := false;
      selectedDistrict := None;
    }

    /** The picker's sync effect. */
    method SyncEffect()
      modifies this`pendingBasinId, this`pendingCountry, this`pendingRegion
      ensures showLocationModal ==>
        pendingBasinId == activeBasinId && pendingCountry == activeCountry && pendingRegion == activeRegion
      ensures !showLocationModal ==>
        pendingBasinId == old(pendingBasinId) && pendingCountry == old(pendingCountry) && pendingRegion == old(pendingRegion)
    {
      if showLocationModal {
        pendingBasinId := activeBasinId;
        pendingCountry := activeCountry;
        pendingRegion := activeRegion;
      }
    }

    /** Opening the picker copies the active location into it; the sync
        effect does not run again while it stays open. */
    method OpenLocationModal()
      modifies this`showLocationModal, this`pendingBasinId, this`pendingCountry, this`pendingRegion
      ensures showLocationModal
      ensures !old(showLocationModal) ==>
        pendingBasinId == activeBasinId && pendingCountry == activeCountry && pendingRegion == activeRegion
      ensures old(showLocationModal) ==>
        pendingBasinId == old(pendingBasinId) && pendingCountry == old(pendingCountry) && pendingRegion == old(pendingRegion)
    {
      var changed := !showLocationModal;
      showLocationModal := true;
      if changed {
        SyncEffect();
      }
    }

    method CloseLocationModal()
      modifies this`showLocationModal
      ensures !showLocationModal
    {
      showLocationModal := false;
    }

    /** Choosing a basin in the picker clears its country and region, which
        disables the confirm button. */
    method SelectPendingBasin(id: string)
      modifies this`pendingBasinId, this`pendingCountry, this`pendingRegion
      ensures pendingBasinId == id && pendingCountry == "" && pendingRegion == ""
      ensures ConfirmDisabled()
    {
      pendingBasinId := id;
      pendingCountry := "";
      pendingRegion := "";
    }

    /** Choosing a country in the picker clears its region; the confirm
        button is enabled exactly when a country was chosen. */
    method SelectPendingCountry(country: string)
      modifies this`pendingCountry, this`pendingRegion
      ensures pendingCountry == country && pendingRegion == ""
      ensures ConfirmDisabled() <==> country == ""
    {
      pendingCountry := country;
      pendingRegion := "";
    }

    method SelectPendingRegion(region: string)
      modifies this`pendingRegion
      ensures pendingRegion == region
    {
      pendingRegion := region;
    }

    /** `handleAutoDetect` before its timer fires. */
    method StartAutoDetect()
      modifies this`detectingLoc
      ensures detectingLoc
    {
      detectingLoc := true;
    }

    /** The auto-detect timer: the picker is filled with Miami's location. */
    method AutoDetectDone()
      modifies this`detectingLoc, this`pendingBasinId, this`pendingCountry, this`pendingRegion
      ensures !detectingLoc && pendingBasinId == "na" && pendingCountry == "USA" && pendingRegion == "Florida"
      ensures !ConfirmDisabled()
    {
      detectingLoc := false;
      pendingBasinId := "na";
      pendingCountry := "USA";
      pendingRegion := "Florida";
    }

    /** `handleConfirmLocation`: the pending location becomes the active one
        and the picker closes; if the location changed, the location effect
        reloads and resets. */
    method ConfirmLocation(callNoise: Noise)
      modifies this`activeBasinId, this`activeCountry, this`activeRegion, this`showLocationModal
      modifies this`simData, this`mapCenter, this`currentTimeIndex, this`isPlaying, this`selectedDistrict
      ensures activeBasinId == old(pendingBasinId) && activeCountry == old(pendingCountry) && activeRegion == old(pendingRegion)
      ensures !showLocationModal
      ensures pendingBasinId == old(pendingBasinId) && pendingCountry == old(pendingCountry) && pendingRegion == old(pendingRegion)
      ensures old(activeBasinId != pendingBasinId || activeCountry != pendingCountry || activeRegion != pendingRegion) ==>
        Reloaded(callNoise)
      ensures old(activeBasinId == pendingBasinId && activeCountry == pendingCountry && activeRegion == pendingRegion) ==>
        && simData == old(simData) && mapCenter == old(mapCenter) && currentTimeIndex == old(currentTimeIndex)
        && isPlaying == old(isPlaying) && selectedDistrict == old(selectedDistrict)
      ensures viewMode == old(viewMode) && isCompareMode == old(isCompareMode)
    {
      var changed := Activate();
      if changed {
        LocationEffect(callNoise);
      }
    }

    /** A click on the confirm button: ignored while it is disabled, else
        `handleConfirmLocation`. A confirmed location always has a country. */
    method ConfirmClicked(callNoise: Noise)
      modifies this`activeBasinId, this`activeCountry, this`activeRegion, this`showLocationModal
      modifies this`simData, this`mapCenter, this`currentTimeIndex, this`isPlaying, this`selectedDistrict
      ensures old(ConfirmDisabled()) ==>
        && activeBasinId == old(activeBasinId) && activeCountry == old(activeCountry) && activeRegion == old(activeRegion)
        && showLocationModal == old(showLocationModal) && simData == old(simData)
      ensures !old(ConfirmDisabled()) ==>
        && activeBasinId == old(pendingBasinId) && activeCountry == old(pendingCountry) && activeRegion == old(pendingRegion)
        && activeCountry != "" && !showLocationModal
    {
      if !ConfirmDisabled() {
        ConfirmLocation(callNoise);
      }
    }

    /** The state updates of `handleConfirmLocation`, reporting whether the
        active location changed. */
    method Activate() returns (changed: bool)
      modifies this`activeBasinId, this`activeCountry, this`activeRegion, this`showLocationModal
      ensures activeBasinId == pendingBasinId && activeCountry == pendingCountry && activeRegion == pendingRegion
      ensures !showLocationModal
      ensures changed <==> old(activeBasinId != pendingBasinId || activeCountry != pendingCountry || activeRegion != pendingRegion)
    {
      changed := activeBasinId != pendingBasinId || activeCountry != pendingCountry || activeRegion != pendingRegion;
      activeBasinId := pendingBasinId;
      activeCountry := pendingCountry;
      activeRegion := pendingRegion;
      showLocationModal := false;
    }

    /** The agent's `onNavigate`: only the basin id changes; the country and
        region stay, the location effect runs if the id changed, and an open
        picker re-syncs. */
    method Navigate(id: string, callNoise: Noise)
      modifies this`activeBasinId, this`pendingBasinId, this`pendingCountry, this`pendingRegion
      modifies this`simData, this`mapCenter, this`currentTimeIndex, this`isPlaying, this`selectedDistrict
      ensures activeBasinId == id && activeCountry == old(activeCountry) && activeRegion == old(activeRegion)
      ensures showLocationModal == old(showLocationModal)
      ensures id != old(activeBasinId) ==> Reloaded(callNoise)
      ensures id != old(activeBasinId) && showLocationModal ==>
        pendingBasinId == id && pendingCountry == activeCountry && pendingRegion == activeRegion
      ensures id == old(activeBasinId) || !showLocationModal ==>
        pendingBasinId == old(pendingBasinId) && pendingCountry == old(pendingCountry) && pendingRegion == old(pendingRegion)
      ensures id == old(activeBasinId) ==>
        && simData == old(simData) && mapCenter == old(mapCenter) && currentTimeIndex == old(currentTimeIndex)
        && isPlaying == old(isPlaying) && selectedDistrict == old(selectedDistrict)
    {
      var changed := activeBasinId != id;
      activeBasinId := id;
      if changed {
        LocationEffect(callNoise);
        SyncEffect();
      }
    }

    /** Showing a basin other than North Indian and North Atlantic with the
        timeline visible: its track is empty, so the footer's status line
        reads past it at the reset index and throws while rendering. */
    lemma EmptyBasinFooterThrows(callNoise: Noise)
      requires load == GetSimulationData && Reloaded(callNoise) && TimelineShown()
      requires activeBasinId != "ni" && activeBasinId != "na"
      ensures StatusAsWritten(simData.track, currentTimeIndex).RenderThrew?
    {
      EmptyBasinStatusThrows(activeBasinId, loadNoise, callNoise);
    }

    /** The playback interval firing once. */
    method Tick()
      requires isPlaying
      modifies this`currentTimeIndex, this`isPlaying
      ensures TickResult(currentTimeIndex, isPlaying) == TickStep(old(currentTimeIndex), |simData.track|)
      ensures old(IndexInRange()) ==> IndexInRange()
    {
      if currentTimeIndex >= |simData.track| - 1 {
        isPlaying := false;
      } else {
        currentTimeIndex := currentTimeIndex + 1;
      }
    }

    method PlayToggle()
      modifies this`isPlaying
      ensures isPlaying == !old(isPlaying)
    {
      isPlaying := !isPlaying;
    }

    /** The timeline's `onSeek`. */
    method Seek(index: int)
      modifies this`currentTimeIndex
      ensures currentTimeIndex == index
      ensures 0 <= index < |simData.track| ==> IndexInRange()
    {
      currentTimeIndex := index;
    }

    method SelectDistrict(district: Option<DistrictRisk>)
      modifies this`selectedDistrict
      ensures selectedDistrict == district
    {
      selectedDistrict := district;
    }

    /** One of the layer check boxes. */
    method SetLayer(layer: LayerSwitch, on: bool)
      modifies this`showEnsembles, this`showEarthquakes, this`showFloods, this`showShelters,
               this`showPowerPlants, this`showEvacRoutes
      ensures showEnsembles == (if layer == Ensembles then on else old(showEnsembles))
      ensures showEarthquakes == (if layer == Earthquakes then on else old(showEarthquakes))
      ensures showFloods == (if layer == Floods then on else old(showFloods))
      ensures showShelters == (if layer == Shelters then on else old(showShelters))
      ensures showPowerPlants == (if layer == PowerPlants then on else old(showPowerPlants))
      ensures showEvacRoutes == (if layer == EvacRoutes then on else old(showEvacRoutes))
    {
      match layer
      case Ensembles => showEnsembles := on;
      case Earthquakes => showEarthquakes := on;
      case Floods => showFloods := on;
      case Shelters => showShelters := on;
      case PowerPlants => showPowerPlants := on;
      case EvacRoutes => showEvacRoutes := on;
    }

    method ToggleCompareMode()
      modifies this`isCompareMode
      ensures isCompareMode == !old(isCompareMode)
    {
      isCompareMode := !isCompareMode;
    }

    /** The dashboard and carbon tracker overlays. */
    method SetOverlays(dashboard: bool, carbonTracker: bool)
      modifies this`showDashboard, this`showCarbonTracker
      ensures showDashboard == dashboard && showCarbonTracker == carbonTracker
    {
      showDashboard := dashboard;
      showCarbonTracker := carbonTracker;
    }
  }
}
