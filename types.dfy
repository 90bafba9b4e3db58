/**
 * The records the dashboard passes around. Floating-point coordinates and
 * scores are `real`: the model reasons about the decimal values written in
 * the data tables, not about their binary approximations.
 */
module Types {

  datatype Option<+T> = None | Some(value: T)

  datatype Coordinate = Coordinate(lat: real, lng: real)

  /** One six-hourly (here twelve-hourly) fix of a cyclone track. */
  datatype CycloneTrackPoint = CycloneTrackPoint(
    lat: real,
    lng: real,
    timestamp: string,
    windSpeedKmph: int,
    pressureHpa: int,
    category: string,
    isForecast: bool)
  {
    /** The point seen through the `Coordinate` interface it extends. */
    function At(): Coordinate { Coordinate(lat, lng) }
  }

  datatype EnsembleMember = EnsembleMember(id: int, path: seq<Coordinate>, color: string)

  datatype DistrictRisk = DistrictRisk(
    id: string,
    name: string,
    state: string,
    riskScore: real,
    riskCiLower: real,
    riskCiUpper: real,
    populationAffected: int,
    criticalInfrastructureCount: int,
    lat: real,
    lng: real)

  datatype Earthquake = Earthquake(
    id: string,
    magnitude: real,
    depthKm: real,
    lat: real,
    lng: real,
    timestamp: string,
    location: string)

  datatype FloodRisk = Moderate | High | Severe
  {
    function Text(): string
    {
      match this
      case Moderate => "MODERATE"
      case High => "HIGH"
      case Severe => "SEVERE"
    }
  }

  datatype FloodZone = FloodZone(id: string, riskLevel: FloodRisk, coordinates: seq<Coordinate>)

  datatype ShelterKind = School | CommunityHall | Bunker
  {
    function Text(): string
    {
      match this
      case School => "SCHOOL"
      case CommunityHall => "COMMUNITY_HALL"
      case Bunker => "BUNKER"
    }
  }

  datatype Shelter = Shelter(
    id: string,
    name: string,
    capacity: int,
    occupied: int,
    lat: real,
    lng: real,
    kind: ShelterKind)

  datatype PlantKind = Coal | Nuclear | Gas
  {
    function Text(): string
    {
      match this
      case Coal => "COAL"
      case Nuclear => "NUCLEAR"
      case Gas => "GAS"
    }
  }

  datatype PowerPlant = PowerPlant(
    id: string,
    name: string,
    kind: PlantKind,
    outputMw: int,
    lat: real,
    lng: real)

  datatype RouteStatus = Open | Congested | Blocked

  datatype EvacuationRoute = EvacuationRoute(
    id: string,
    fromDistrictId: string,
    toShelterId: string,
    path: seq<Coordinate>,
    status: RouteStatus)

  datatype MapViewMode = TrackView | HeatmapView | ImpactView

  /** A cyclone basin of the global registry. */
  datatype Basin = Basin(
    id: string,
    name: string,
    agency: string,
    countries: seq<string>,
    defaultCenter: Coordinate)

  /** Everything the map, timeline and agent read for one basin. */
  datatype SimulationData = SimulationData(
    track: seq<CycloneTrackPoint>,
    ensembles: seq<EnsembleMember>,
    districts: seq<DistrictRisk>,
    floodZones: seq<FloodZone>,
    shelters: seq<Shelter>,
    powerPlants: seq<PowerPlant>,
    evacRoutes: seq<EvacuationRoute>,
    earthquakes: seq<Earthquake>)

  datatype LogStatus = Success | Failure | Pending

  /** A diagnostics record. */
  datatype ApiLog = ApiLog(
    id: string,
    timestamp: string,
    endpoint: string,
    status: LogStatus,
    latencyMs: int,
    details: string)

  /** What a caller of `addLog` supplies: a record without id and timestamp. */
  datatype LogInput = LogInput(endpoint: string, status: LogStatus, latencyMs: int, details: string)

  datatype ActionType = Navigate | Alert

  /** A side effect the agent asks the host to apply. */
  datatype AgentAction = AgentAction(kind: ActionType, payload: string)

  /** One entry of the remote chat's history; its contents belong to the
      remote service and are passed through unread. */
  datatype Content = Content(role: string, text: string)

  datatype AgentResponse = AgentResponse(
    text: string,
    newHistory: seq<Content>,
    action: Option<AgentAction>)
}
