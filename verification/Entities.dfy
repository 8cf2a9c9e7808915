/** The records the control plane stores and routes on: validated services,
    roles and hosts. */
module Entities {
  import opened Common
  import opened Json

  datatype Kind = Chat | Embeddings | Transcription

  datatype Position = Prepend | Append | Replace

  /** A request-shaping policy; an empty prompt means there is none. */
  datatype Policy = Policy(bodyDefaults: map<string, Json>, systemPrompt: string, position: Position)

  datatype Asset = Asset(
    assetId: string,
    loaded: bool,
    contextSize: Option<int>,
    maxContextTokens: Option<int>,
    requestPolicy: Policy)

  datatype Runtime = Runtime(
    engine: string,
    launcher: string,
    providerId: string,
    contextSize: Option<int>,
    maxContextTokens: Option<int>)

  datatype Availability = Available | Busy | Draining | PausedByUser | Offline | Quarantined

  datatype State = State(
    health: string,
    availability: Availability,
    acceptRequests: bool,
    allowEmployeeDirect: bool)

  datatype Observed = Observed(
    p50LatencyMs: Option<real>,
    tokensPerSec: Option<real>,
    queueDepth: Option<int>,
    inFlight: Option<int>,
    maxContextTokens: Option<int>)

  datatype Service = Service(
    serviceId: string,
    hostId: string,
    kind: Kind,
    protocol: string,
    endpoint: string,
    runtime: Runtime,
    assets: seq<Asset>,
    state: State,
    observed: Observed)
  {
    predicate AnyLoaded() {
      exists i | 0 <= i < |assets| :: assets[i].loaded
    }
  }

  datatype Guardrail = NoGuardrail | ForgeProxy | ForgeMiddleware | NativeLight

  /** A role's routing policy; the tier, device and workload sets are already
      trimmed and lower-cased. */
  datatype RoutingPolicy = RoutingPolicy(
    preferredFamilies: seq<string>,
    minContext: Option<int>,
    requireLoaded: bool,
    allowEmployeeDevices: bool,
    allowedTrustTiers: set<string>,
    deniedTrustTiers: set<string>,
    allowedDeviceClasses: set<string>,
    deniedDeviceClasses: set<string>,
    allowedWorkloadClasses: set<string>,
    deniedWorkloadClasses: set<string>,
    fallbackRoles: seq<string>,
    guardrail: Guardrail)

  datatype Role = Role(
    roleId: string,
    operation: Kind,
    modality: string,
    requestPolicy: Policy,
    routing: RoutingPolicy)

  /** What routing reads off a host row: the labels and resources, trimmed and
      lower-cased; an absent value is None or the empty set. */
  datatype Host = Host(
    hostId: string,
    externalProvider: bool,
    trustTier: Option<string>,
    deviceClass: Option<string>,
    workloadClasses: set<string>,
    allowedFamilies: set<string>,
    statusState: string,
    metrics: Json)
}
