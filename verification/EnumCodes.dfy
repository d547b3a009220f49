/** The byte each enumerator is stored as, and the enumerator a byte stands for. Bytes past the last
    enumerator stand for nothing, which is how a reader recognises an invalid one. */
module EnumCodes {
  import opened Core

  const ALL_PROVENANCES: seq<Provenance> := [
    Measured, Reported, Derived, Estimated, Forecast, Synthetic, UnknownProvenance ]

  function ProvenanceOf(b: u8): Option<Provenance> {
    if b < |ALL_PROVENANCES| then Some(ALL_PROVENANCES[b]) else None
  }

  function ProvenanceCode(x: Provenance): (b: u8)
    ensures ProvenanceOf(b) == Some(x)
  {
    match x
    case Measured => 0
    case Reported => 1
    case Derived => 2
    case Estimated => 3
    case Forecast => 4
    case Synthetic => 5
    case UnknownProvenance => 6
  }

  const ALL_TRANSPORTS: seq<Transport> := [
    LoopbackTcp, Tcp, UnixSocket, SharedMemory, Pcie, Nvlink, GpuPeer, HostMemory, Network, StorageTransport,
    Cuda, Rdma, UnknownTransport ]

  function TransportOf(b: u8): Option<Transport> {
    if b < |ALL_TRANSPORTS| then Some(ALL_TRANSPORTS[b]) else None
  }

  function TransportCode(x: Transport): (b: u8)
    ensures TransportOf(b) == Some(x)
  {
    match x
    case LoopbackTcp => 0
    case Tcp => 1
    case UnixSocket => 2
    case SharedMemory => 3
    case Pcie => 4
    case Nvlink => 5
    case GpuPeer => 6
    case HostMemory => 7
    case Network => 8
    case StorageTransport => 9
    case Cuda => 10
    case Rdma => 11
    case UnknownTransport => 12
  }

  const ALL_REQUESTSHAPES: seq<RequestShape> := [
    PointToPoint, Staged, Multicast, Collective, UnknownShape ]

  function RequestShapeOf(b: u8): Option<RequestShape> {
    if b < |ALL_REQUESTSHAPES| then Some(ALL_REQUESTSHAPES[b]) else None
  }

  function RequestShapeCode(x: RequestShape): (b: u8)
    ensures RequestShapeOf(b) == Some(x)
  {
    match x
    case PointToPoint => 0
    case Staged => 1
    case Multicast => 2
    case Collective => 3
    case UnknownShape => 4
  }

  const ALL_DIRECTIONS: seq<Direction> := [
    Forward, Reverse, Bidirectional ]

  function DirectionOf(b: u8): Option<Direction> {
    if b < |ALL_DIRECTIONS| then Some(ALL_DIRECTIONS[b]) else None
  }

  function DirectionCode(x: Direction): (b: u8)
    ensures DirectionOf(b) == Some(x)
  {
    match x
    case Forward => 0
    case Reverse => 1
    case Bidirectional => 2
  }

  const ALL_COLLECTIVESHAPES: seq<CollectiveShape> := [
    AllReduce, AllGather, ReduceScatter, Broadcast, Gather, Scatter, AllToAll, Hierarchical,
    UnknownCollective ]

  function CollectiveShapeOf(b: u8): Option<CollectiveShape> {
    if b < |ALL_COLLECTIVESHAPES| then Some(ALL_COLLECTIVESHAPES[b]) else None
  }

  function CollectiveShapeCode(x: CollectiveShape): (b: u8)
    ensures CollectiveShapeOf(b) == Some(x)
  {
    match x
    case AllReduce => 0
    case AllGather => 1
    case ReduceScatter => 2
    case Broadcast => 3
    case Gather => 4
    case Scatter => 5
    case AllToAll => 6
    case Hierarchical => 7
    case UnknownCollective => 8
  }

  const ALL_PLANSTATES: seq<PlanState> := [
    Requested, Discovering, Constructing, Filtering, Ranking, PlanReady, AwaitingResourceCommit, Committed,
    AwaitingExecution, Active, RevalidationRequired, Completed, Cancelled, Failed, Superseded, Retired ]

  function PlanStateOf(b: u8): Option<PlanState> {
    if b < |ALL_PLANSTATES| then Some(ALL_PLANSTATES[b]) else None
  }

  function PlanStateCode(x: PlanState): (b: u8)
    ensures PlanStateOf(b) == Some(x)
  {
    match x
    case Requested => 0
    case Discovering => 1
    case Constructing => 2
    case Filtering => 3
    case Ranking => 4
    case PlanReady => 5
    case AwaitingResourceCommit => 6
    case Committed => 7
    case AwaitingExecution => 8
    case Active => 9
    case RevalidationRequired => 10
    case Completed => 11
    case Cancelled => 12
    case Failed => 13
    case Superseded => 14
    case Retired => 15
  }

  const ALL_FEASIBILITYS: seq<Feasibility> := [
    Feasible, RejectEndpoint, RejectStaleEndpoint, RejectCapability, RejectTransport, RejectTopology,
    RejectDirection, RejectCapacity, RejectReservation, RejectCongestionHardLimit, RejectHealth,
    RejectStageLimit, RejectFailureDomain, RejectPolicy, NeedsRevalidation, InsufficientEvidence,
    UnknownFeasibility ]

  function FeasibilityOf(b: u8): Option<Feasibility> {
    if b < |ALL_FEASIBILITYS| then Some(ALL_FEASIBILITYS[b]) else None
  }

  function FeasibilityCode(x: Feasibility): (b: u8)
    ensures FeasibilityOf(b) == Some(x)
  {
    match x
    case Feasible => 0
    case RejectEndpoint => 1
    case RejectStaleEndpoint => 2
    case RejectCapability => 3
    case RejectTransport => 4
    case RejectTopology => 5
    case RejectDirection => 6
    case RejectCapacity => 7
    case RejectReservation => 8
    case RejectCongestionHardLimit => 9
    case RejectHealth => 10
    case RejectStageLimit => 11
    case RejectFailureDomain => 12
    case RejectPolicy => 13
    case NeedsRevalidation => 14
    case InsufficientEvidence => 15
    case UnknownFeasibility => 16
  }

  const ALL_COSTFACTORS: seq<CostFactor> := [
    TotalExpectedCompletionCost, PathLatency, EffectiveBandwidth, ResidualBandwidth, CongestionPenalty,
    QueueingEstimate, HopCount, StageCount, StagingOverhead, HostStagingCost, NumaDistance, PcieLocality,
    NicLocality, StorageLocality, EndpointHealth, ReservationFit, CapacityHeadroom, FailureDomainRisk,
    Reliability, MovementCost, PolicyPreference, UnknownFactor ]

  function CostFactorOf(b: u8): Option<CostFactor> {
    if b < |ALL_COSTFACTORS| then Some(ALL_COSTFACTORS[b]) else None
  }

  function CostFactorCode(x: CostFactor): (b: u8)
    ensures CostFactorOf(b) == Some(x)
  {
    match x
    case TotalExpectedCompletionCost => 0
    case PathLatency => 1
    case EffectiveBandwidth => 2
    case ResidualBandwidth => 3
    case CongestionPenalty => 4
    case QueueingEstimate => 5
    case HopCount => 6
    case StageCount => 7
    case StagingOverhead => 8
    case HostStagingCost => 9
    case NumaDistance => 10
    case PcieLocality => 11
    case NicLocality => 12
    case StorageLocality => 13
    case EndpointHealth => 14
    case ReservationFit => 15
    case CapacityHeadroom => 16
    case FailureDomainRisk => 17
    case Reliability => 18
    case MovementCost => 19
    case PolicyPreference => 20
    case UnknownFactor => 21
  }
}
