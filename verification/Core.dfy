/** Machine integers, floating-point values and the enumerations every component shares. */
module Core {

  const TWO64: nat := 0x1_0000_0000_0000_0000
  const TWO32: nat := 0x1_0000_0000

  type u8 = x: nat | x < 0x100
  type u32 = x: nat | x < 0x1_0000_0000
  type u64 = x: nat | x < 0x1_0000_0000_0000_0000

  type Bytes = seq<u8>

  datatype Option<+T> = None | Some(value: T)

  /** Unsigned 64-bit addition, wrapping as the hardware does. */
  function Add64(a: u64, b: nat): u64 { (a + b) % TWO64 }

  /** `Generation::next`. */
  function Next64(g: u64): u64 { Add64(g, 1) }

  /** An IEEE double with the rounding left out: a real number, an infinity or NaN. */
  datatype Double = NaN | PosInf | NegInf | Fin(r: real) {
    predicate Finite() { Fin? }

    predicate NonNegFinite() { Fin? && r >= 0.0 }

    /** The `<` of IEEE 754: every comparison with NaN is false. */
    predicate Lt(other: Double) {
      match (this, other)
      case (NaN, _) => false
      case (_, NaN) => false
      case (Fin(a), Fin(b)) => a < b
      case (NegInf, _) => !other.NegInf?
      case (_, PosInf) => !this.PosInf?
      case _ => false
    }

    /** The `!=` of IEEE 754: NaN differs from everything, itself included. */
    predicate Ne(other: Double) {
      NaN? || other.NaN? || this != other
    }
  }

  datatype Provenance = Measured | Reported | Derived | Estimated | Forecast | Synthetic | UnknownProvenance

  datatype EndpointKind =
    | GpuDevice | CpuMemory | PinnedHostMemory | NumaMemory | Nic | Storage | Process | Service
    | Cache | Checkpoint | ModelResidency | StateLocation | UnknownKind

  datatype Transport =
    | LoopbackTcp | Tcp | UnixSocket | SharedMemory | Pcie | Nvlink | GpuPeer | HostMemory
    | Network | StorageTransport | Cuda | Rdma | UnknownTransport

  datatype RequestShape = PointToPoint | Staged | Multicast | Collective | UnknownShape

  datatype Direction = Forward | Reverse | Bidirectional

  datatype CollectiveShape =
    | AllReduce | AllGather | ReduceScatter | Broadcast | Gather | Scatter | AllToAll | Hierarchical
    | UnknownCollective

  datatype PlanState =
    | Requested | Discovering | Constructing | Filtering | Ranking | PlanReady
    | AwaitingResourceCommit | Committed | AwaitingExecution | Active | RevalidationRequired
    | Completed | Cancelled | Failed | Superseded | Retired

  datatype Feasibility =
    | Feasible | RejectEndpoint | RejectStaleEndpoint | RejectCapability | RejectTransport
    | RejectTopology | RejectDirection | RejectCapacity | RejectReservation
    | RejectCongestionHardLimit | RejectHealth | RejectStageLimit | RejectFailureDomain
    | RejectPolicy | NeedsRevalidation | InsufficientEvidence | UnknownFeasibility

  datatype CostFactor =
    | TotalExpectedCompletionCost | PathLatency | EffectiveBandwidth | ResidualBandwidth
    | CongestionPenalty | QueueingEstimate | HopCount | StageCount | StagingOverhead
    | HostStagingCost | NumaDistance | PcieLocality | NicLocality | StorageLocality
    | EndpointHealth | ReservationFit | CapacityHeadroom | FailureDomainRisk | Reliability
    | MovementCost | PolicyPreference | UnknownFactor
}
