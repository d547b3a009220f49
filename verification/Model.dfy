/** The records the planner, the store and the coordinator exchange. Identifiers and generations are
    64-bit numbers in which 0 means "null". */
module Model {
  import opened Core

  datatype Endpoint = Endpoint(
    id: u64, generation: u64, kind: EndpointKind,
    nic: u64, pcieRoot: Bytes, numaDistance: int,
    transports: set<Transport>, reachable: bool, ready: bool,
    worker: u64, workerBoot: u64, source: u64, sourceBoot: u64)

  datatype Capacity = Capacity(generation: u64, usable: u64, headroom: u64, provenance: Provenance)

  datatype Congestion = Congestion(
    generation: u64, load: Double, penalty: Double, hardLimitExceeded: bool, provenance: Provenance)

  datatype Link = Link(
    id: u64, generation: u64, source: u64, destination: u64, transport: Transport, directed: bool,
    capacity: u64, effectiveBandwidth: u64, latency: u64, healthy: bool, congestion: Congestion,
    capacityEvidence: Capacity, failureDomain: Bytes, workerBoot: u64, provenance: Provenance)

  datatype Reservation = Reservation(resource: u64, reserved: u64)

  /** The evidence generations a plan binds, in the order it stores them. */
  datatype Generations = Generations(
    topology: u64, capacity: u64, reservation: u64, congestion: u64,
    capability: u64, health: u64, placement: u64, authority: u64)

  datatype Snapshot = Snapshot(
    generations: Generations, policyGeneration: u64,
    endpoints: seq<Endpoint>, links: seq<Link>, reservations: seq<Reservation>,
    resourceCapacities: seq<(u64, Capacity)>,
    workerBoots: map<u64, u64>, sourceBoots: map<u64, u64>, epoch: u64)

  datatype Request = Request(
    id: u64, generation: u64, shape: RequestShape, source: u64, destinations: seq<u64>,
    payloadSize: u64, direction: Direction,
    allowStaging: bool, allowHostStaging: bool, allowStorageStaging: bool, allowRelay: bool,
    allowMulticast: bool, allowed: set<Transport>, forbidden: set<Transport>,
    requiredFailureDomain: Bytes, maxHops: u32, maxStages: u32, policyGeneration: u64,
    collectiveShape: CollectiveShape, participants: seq<u64>, collectiveCount: u32)
  {
    function EffectiveShape(): RequestShape {
      if shape.Multicast? || allowMulticast then Multicast else shape
    }

    /** `CommunicationRequest::validate`; an invalid request makes the planner throw. */
    predicate Valid() {
      && id != 0 && generation != 0 && payloadSize != 0
      && 0 < maxHops <= 255 && 0 < maxStages <= 255
      && (shape.Collective? ==>
            0 < collectiveCount <= 0x10_0000 && !collectiveShape.UnknownCollective? && participants != [])
      && (if shape.Multicast? || allowMulticast then 2 <= |destinations| <= 0x1_0000
          else shape.PointToPoint? || shape.Staged? ==> source != 0 && |destinations| == 1)
      && allowed !! forbidden
      && UnknownTransport !in forbidden
    }
  }

  datatype Bounds = Bounds(
    maxCandidates: u64, maxPathDepth: u32, maxRelayCount: u32,
    maxCollectiveParticipants: u32, maxFallbacks: u64)

  datatype Hop = Hop(link: u64, from: u64, to: u64)

  datatype CandidatePath = CandidatePath(source: u64, destination: u64, hops: seq<Hop>)

  /** Cost figures are `Double`s inside the planner and 64-bit patterns inside the store. */
  datatype CostComponent<D> = CostComponent(factor: CostFactor, weight: D, value: D, provenance: Provenance)

  datatype CostSummary<D> = CostSummary(components: seq<CostComponent<D>>, total: D)

  datatype Stage = Stage(
    id: u64, generation: u64, source: u64, destination: u64, link: u64, transport: Transport,
    payload: u64, expectedBandwidth: u64, expectedLatency: u64, stagingResource: u64,
    requiresAuthority: bool, provenance: Provenance, description: Bytes)

  datatype Path<D> = Path(
    id: u64, generation: u64, source: u64, destination: u64, stages: seq<Stage>,
    totalPayload: u64, cost: CostSummary<D>, provenance: Provenance,
    failureDomain: Bytes, reason: Bytes)

  datatype Plan<D> = Plan(
    id: u64, generation: u64, requestId: u64, requestGeneration: u64, shape: RequestShape,
    primaryPath: u64, fallbackPaths: seq<u64>, candidatePaths: seq<Path<D>>,
    orderedStages: seq<Stage>, feasibility: Feasibility, bound: Generations,
    endpointGenerations: seq<(u64, u64)>, linkGenerations: seq<(u64, u64)>,
    requiredStagingResources: seq<u64>, requiredResourceClaims: seq<u64>,
    cost: CostSummary<D>, explanations: seq<Bytes>, provenance: Bytes,
    revalidationGeneration: u64, revalidateBeforeExecute: bool, handoffRequirement: Bytes,
    createdProvenance: Bytes, multicastDestinations: seq<u64>,
    collectiveShape: CollectiveShape, collectiveParticipants: seq<u64>, description: Bytes)

  /** The kinds of endpoint that hold a payload in some host's memory or service. */
  const HOST_KINDS: seq<EndpointKind> := [
    CpuMemory, PinnedHostMemory, NumaMemory, Cache, Checkpoint, ModelResidency, StateLocation, Process, Service ]

  lemma HostKindsAre(k: EndpointKind)
    ensures k in HOST_KINDS <==> k != GpuDevice && k != Nic && k != Storage && k != UnknownKind
  {
    assert HOST_KINDS[0] == CpuMemory && HOST_KINDS[1] == PinnedHostMemory && HOST_KINDS[2] == NumaMemory;
    assert HOST_KINDS[3] == Cache && HOST_KINDS[4] == Checkpoint && HOST_KINDS[5] == ModelResidency;
    assert HOST_KINDS[6] == StateLocation && HOST_KINDS[7] == Process && HOST_KINDS[8] == Service;
  }

  ghost predicate UniqueEndpoints(es: seq<Endpoint>) {
    forall i, j :: 0 <= i < j < |es| ==> es[i].id != es[j].id
  }

  ghost predicate UniqueLinks(ls: seq<Link>) {
    forall i, j :: 0 <= i < j < |ls| ==> ls[i].id != ls[j].id
  }

  /** `EvidenceSnapshot::endpointMap`: a later entry replaces an earlier one with its id. */
  function EndpointMap(es: seq<Endpoint>): map<u64, Endpoint> {
    if es == [] then map[]
    else EndpointMap(es[..|es| - 1])[es[|es| - 1].id := es[|es| - 1]]
  }

  /** `EvidenceSnapshot::linkMap`. */
  function LinkMap(ls: seq<Link>): map<u64, Link> {
    if ls == [] then map[]
    else LinkMap(ls[..|ls| - 1])[ls[|ls| - 1].id := ls[|ls| - 1]]
  }

  method BuildEndpointMap(es: seq<Endpoint>) returns (m: map<u64, Endpoint>)
    ensures m == EndpointMap(es)
  {
    m := map[];
    for i := 0 to |es|
      invariant m == EndpointMap(es[..i])
    {
      m := m[es[i].id := es[i]];
      assert es[..i + 1][..i] == es[..i];
    }
    assert es[..|es|] == es;
  }

  method BuildLinkMap(ls: seq<Link>) returns (m: map<u64, Link>)
    ensures m == LinkMap(ls)
  {
    m := map[];
    for i := 0 to |ls|
      invariant m == LinkMap(ls[..i])
    {
      m := m[ls[i].id := ls[i]];
      assert ls[..i + 1][..i] == ls[..i];
    }
    assert ls[..|ls|] == ls;
  }

  lemma {:induction false} EndpointMapKeys(es: seq<Endpoint>)
    ensures forall id :: id in EndpointMap(es) ==> EndpointMap(es)[id].id == id && EndpointMap(es)[id] in es
    ensures forall e :: e in es ==> e.id in EndpointMap(es)
  {
    if es != [] {
      EndpointMapKeys(es[..|es| - 1]);
      assert es == es[..|es| - 1] + [es[|es| - 1]];
    }
  }

  lemma {:induction false} LinkMapKeys(ls: seq<Link>)
    ensures forall id :: id in LinkMap(ls) ==> LinkMap(ls)[id].id == id && LinkMap(ls)[id] in ls
    ensures forall l :: l in ls ==> l.id in LinkMap(ls)
  {
    if ls != [] {
      LinkMapKeys(ls[..|ls| - 1]);
      assert ls == ls[..|ls| - 1] + [ls[|ls| - 1]];
    }
  }

  /** Of several entries with one id the last counts. */
  lemma {:induction false} EndpointMapFindsLast(es: seq<Endpoint>, i: nat)
    requires i < |es| && forall j :: i < j < |es| ==> es[j].id != es[i].id
    ensures es[i].id in EndpointMap(es) && EndpointMap(es)[es[i].id] == es[i]
  {
    if i < |es| - 1 { EndpointMapFindsLast(es[..|es| - 1], i); }
  }

  lemma {:induction false} LinkMapFindsLast(ls: seq<Link>, i: nat)
    requires i < |ls| && forall j :: i < j < |ls| ==> ls[j].id != ls[i].id
    ensures ls[i].id in LinkMap(ls) && LinkMap(ls)[ls[i].id] == ls[i]
  {
    if i < |ls| - 1 { LinkMapFindsLast(ls[..|ls| - 1], i); }
  }

  /** With unique ids the map is the list read as a relation, whatever its order. */
  lemma EndpointMapFindsUnique(es: seq<Endpoint>, e: Endpoint)
    requires UniqueEndpoints(es) && e in es
    ensures e.id in EndpointMap(es) && EndpointMap(es)[e.id] == e
  {
    EndpointMapKeys(es);
  }

  lemma LinkMapFindsUnique(ls: seq<Link>, l: Link)
    requires UniqueLinks(ls) && l in ls
    ensures l.id in LinkMap(ls) && LinkMap(ls)[l.id] == l
  {
    LinkMapKeys(ls);
  }
}
