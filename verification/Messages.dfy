/** The payload each message type carries (src/protocol.cpp). A message holds exactly the fields its type
    puts on the wire. */
module Messages {
  import opened Core
  import opened Model
  import opened EnumCodes
  import opened Wire
  import opened StoreCodec
  import opened Frames

  datatype LinkKind =
    | HostMemoryPath | NumaPath | PciePath | GpuHostPath | GpuPeerPath | NvlinkClassPath | NicPath | LoopbackTcpPath
    | NetworkPath | StoragePath | SharedMemoryPath | SoftwareRelay | Composite | UnknownLinkKind

  const ALL_LINKKINDS: seq<LinkKind> := [
    HostMemoryPath, NumaPath, PciePath, GpuHostPath, GpuPeerPath, NvlinkClassPath, NicPath, LoopbackTcpPath,
    NetworkPath, StoragePath, SharedMemoryPath, SoftwareRelay, Composite, UnknownLinkKind ]

  function LinkKindOf(b: u8): Option<LinkKind> {
    if b < |ALL_LINKKINDS| then Some(ALL_LINKKINDS[b]) else None
  }

  function LinkKindCode(x: LinkKind): (b: u8)
    ensures LinkKindOf(b) == Some(x)
  {
    match x
    case HostMemoryPath => 0 case NumaPath => 1 case PciePath => 2 case GpuHostPath => 3 case GpuPeerPath => 4
    case NvlinkClassPath => 5 case NicPath => 6 case LoopbackTcpPath => 7 case NetworkPath => 8
    case StoragePath => 9 case SharedMemoryPath => 10 case SoftwareRelay => 11 case Composite => 12
    case UnknownLinkKind => 13
  }

  const ALL_KINDS: seq<EndpointKind> := [
    GpuDevice, CpuMemory, PinnedHostMemory, NumaMemory, Nic, Storage, Process, Service, Cache, Checkpoint,
    ModelResidency, StateLocation, UnknownKind ]

  function EndpointKindOf(b: u8): Option<EndpointKind> {
    if b < |ALL_KINDS| then Some(ALL_KINDS[b]) else None
  }

  function EndpointKindCode(x: EndpointKind): (b: u8)
    ensures EndpointKindOf(b) == Some(x)
  {
    match x
    case GpuDevice => 0 case CpuMemory => 1 case PinnedHostMemory => 2 case NumaMemory => 3 case Nic => 4
    case Storage => 5 case Process => 6 case Service => 7 case Cache => 8 case Checkpoint => 9
    case ModelResidency => 10 case StateLocation => 11 case UnknownKind => 12
  }

  // ----- fields with a form of their own -----

  /** A set of transports goes out in ascending order. */
  function Ascending(s: set<Transport>, i: nat): seq<Transport>
    requires i <= |ALL_TRANSPORTS|
    decreases |ALL_TRANSPORTS| - i
  {
    if i == |ALL_TRANSPORTS| then []
    else (if ALL_TRANSPORTS[i] in s then [ALL_TRANSPORTS[i]] else []) + Ascending(s, i + 1)
  }

  lemma {:induction false} AscendingElements(s: set<Transport>, i: nat)
    requires i <= |ALL_TRANSPORTS|
    ensures |Ascending(s, i)| <= |ALL_TRANSPORTS| - i
    ensures forall t :: t in Ascending(s, i) <==> t in s && t in ALL_TRANSPORTS[i..]
    decreases |ALL_TRANSPORTS| - i
  {
    if i < |ALL_TRANSPORTS| {
      AscendingElements(s, i + 1);
      assert ALL_TRANSPORTS[i..] == [ALL_TRANSPORTS[i]] + ALL_TRANSPORTS[i + 1..];
    }
  }

  lemma EveryTransport(t: Transport)
    ensures t in ALL_TRANSPORTS
  {
    assert ALL_TRANSPORTS[TransportCode(t)] == t;
  }

  function PutTransport(t: Transport, rest: Bytes): (b: Bytes)
    ensures ReadTransport(b) == Got(t, rest)
  {
    Put8(TransportCode(t), rest)
  }

  function ReadTransport(b: Bytes): Read<Transport> { ReadEnum(TransportOf, b) }

  function SetOf(ts: seq<Transport>): set<Transport> { set t | t in ts }

  function PutTransports(s: set<Transport>, rest: Bytes): (b: Bytes)
    ensures ReadTransports(b) == Got(s, rest)
  {
    TransportsRoundTrip(s, rest);
    PutList(PutTransport, Ascending(s, 0), rest)
  }

  function ReadTransports(b: Bytes): Read<set<Transport>> {
    var (n, b) :- Read32(b);
    if n > 64 then Fail(OversizedCount)
    else
      var (ts, b) :- ReadAll(ReadTransport, n, b);
      Got(SetOf(ts), b)
  }

  lemma TransportsRoundTrip(s: set<Transport>, rest: Bytes)
    ensures ReadTransports(PutList(PutTransport, Ascending(s, 0), rest)) == Got(s, rest)
  {
    hide Put32, Read32, PutTransport, ReadTransport, Ascending;
    AscendingElements(s, 0);
    AllRoundTrip(PutTransport, ReadTransport, Ascending(s, 0), rest);
    forall t ensures t in SetOf(Ascending(s, 0)) <==> t in s {
      EveryTransport(t);
      assert ALL_TRANSPORTS[0..] == ALL_TRANSPORTS;
    }
    assert SetOf(Ascending(s, 0)) == s;
  }

  /** A fixed eight-byte text field. */
  type Arch = a: Bytes | |a| == 8 witness [0, 0, 0, 0, 0, 0, 0, 0]

  /** `setArch` keeps seven bytes and ends the field with a NUL. */
  function Terminated(a: Arch): Arch { a[..7] + [0] }

  function PutArch(a: Arch, rest: Bytes): (b: Bytes)
    ensures ReadArch(b) == Got(Terminated(a), rest)
  {
    assert (a + rest)[..7] == a[..7] && (a + rest)[8..] == rest;
    a + rest
  }

  function ReadArch(b: Bytes): Read<Arch> {
    if |b| < 8 then Fail(Truncation) else Got(b[..7] + [0], b[8..])
  }

  type Int32 = x: int | -0x8000_0000 <= x < 0x8000_0000

  /** A negative distance goes out as zero; a received one is cut to 32 bits. */
  function NumaCarried(d: Int32): Int32 { if d > 0 then d else 0 }

  function PutNuma(d: Int32, rest: Bytes): (b: Bytes)
    ensures ReadNuma(b) == Got(NumaCarried(d), rest)
  {
    Put64(if d > 0 then d else 0, rest)
  }

  function ReadNuma(b: Bytes): Read<Int32> {
    var (v, b) :- Read64(b);
    var low := v % TWO32;
    Got(if low < 0x8000_0000 then low else low - TWO32, b)
  }

  function PutPriority(p: u32, rest: Bytes): (b: Bytes)
    ensures ReadPriority(b) == Got(p, rest)
  {
    Put64(p, rest)
  }

  function ReadPriority(b: Bytes): Read<u32> {
    var (v, b) :- Read64(b);
    Got(v % TWO32, b)
  }

  function PutCount(n: u32, rest: Bytes): (b: Bytes)
    ensures ReadCount(b) == Got(n, rest)
  {
    Put64(n, rest)
  }

  function ReadCount(b: Bytes): Read<u32> {
    var (v, b) :- Read64(b);
    if v >= TWO32 then Fail(Overflow) else Got(v, b)
  }

  function PutIds(ids: seq<u64>, rest: Bytes): (b: Bytes)
    ensures |ids| <= MAX_COUNT ==> ReadIds(b) == Got(ids, rest)
  {
    assert |ids| <= MAX_COUNT ==> ReadList(Read64, PutList(Put64, ids, rest)) == Got(ids, rest) by {
      if |ids| <= MAX_COUNT { IdsRoundTrip(ids, rest); }
    }
    PutList(Put64, ids, rest)
  }

  function ReadIds(b: Bytes): Read<seq<u64>> { ReadList(Read64, b) }

  function PutPairs(ps: seq<(u64, u64)>, rest: Bytes): (b: Bytes)
    ensures |ps| <= MAX_COUNT ==> ReadPairs(b) == Got(ps, rest)
  {
    assert |ps| <= MAX_COUNT ==> ReadList(ReadPair, PutList(PutPair, ps, rest)) == Got(ps, rest) by {
      if |ps| <= MAX_COUNT { PairsRoundTrip(ps, rest); }
    }
    PutList(PutPair, ps, rest)
  }

  function ReadPairs(b: Bytes): Read<seq<(u64, u64)>> { ReadList(ReadPair, b) }

  // ----- endpoints -----

  datatype Capability = Capability(generation: u64, transports: set<Transport>, provenance: Provenance, arch:
    Arch)

  function PutCapability(c: Capability, rest: Bytes): (out: Bytes)
    ensures ReadCapability(out) == Got(CarriedCapability(c), rest)
  {
    Put64(c.generation, PutTransports(c.transports, Put8(ProvenanceCode(c.provenance), PutArch(c.arch, rest))))
  }

  function ReadCapability(b: Bytes): Read<Capability> {
    var (generation, b) :- Read64(b);
    var (transports, b) :- ReadTransports(b);
    var (provenance, b) :- ReadEnum(ProvenanceOf, b);
    var (arch, b) :- ReadArch(b);
    Got(Capability(generation, transports, provenance, arch), b)
  }

  function CarriedCapability(c: Capability): Capability { c.(arch := Terminated(c.arch)) }

  datatype Texts = Texts(address: Bytes, protocol: Bytes, version: Bytes, name: Bytes)

  function PutTexts(t: Texts, rest: Bytes): (out: Bytes)
    ensures TextsCarried(t) ==> ReadTexts(out) == Got(t, rest)
  {
    PutStr(t.address, PutStr(t.protocol, PutStr(t.version, PutStr(t.name, rest))))
  }

  function ReadTexts(b: Bytes): Read<Texts> {
    var (address, b) :- ReadStr(b);
    var (protocol, b) :- ReadStr(b);
    var (version, b) :- ReadStr(b);
    var (name, b) :- ReadStr(b);
    Got(Texts(address, protocol, version, name), b)
  }

  predicate TextsCarried(t: Texts) {
    |t.address| <= MAX_COUNT && |t.protocol| <= MAX_COUNT && |t.version| <= MAX_COUNT && |t.name| <= MAX_COUNT
  }

  datatype Owner = Owner(worker: u64, workerBoot: u64, source: u64, sourceBoot: u64)

  function PutOwner(o: Owner, rest: Bytes): (out: Bytes)
    ensures ReadOwner(out) == Got(o, rest)
  {
    Put64(o.worker, Put64(o.workerBoot, Put64(o.source, Put64(o.sourceBoot, rest))))
  }

  function ReadOwner(b: Bytes): Read<Owner> {
    var (worker, b) :- Read64(b);
    var (workerBoot, b) :- Read64(b);
    var (source, b) :- Read64(b);
    var (sourceBoot, b) :- Read64(b);
    Got(Owner(worker, workerBoot, source, sourceBoot), b)
  }

  datatype WireEndpoint = WireEndpoint(id: u64, generation: u64, kind: EndpointKind, node: u64, device: u64,
    capability: Capability, texts: Texts, healthy: bool, reachable: bool, ready: bool, owner: Owner, failureDomain:
    Bytes, provenance: Provenance, pcieRoot: Bytes, numaDistance: Int32)

  function PutWireEndpoint(e: WireEndpoint, rest: Bytes): (out: Bytes)
    ensures EndpointFits(e) ==> ReadWireEndpoint(out) == Got(CarriedEndpoint(e), rest)
  {
    Put64(e.id, Put64(e.generation, Put8(EndpointKindCode(e.kind), Put64(e.node, Put64(e.device,
      PutCapability(e.capability, PutTexts(e.texts, PutBool(e.healthy, PutBool(e.reachable, PutBool(e.ready,
      PutOwner(e.owner, PutStr(e.failureDomain, Put8(ProvenanceCode(e.provenance), PutStr(e.pcieRoot,
      PutNuma(e.numaDistance, rest)))))))))))))))
  }

  function ReadWireEndpoint(b: Bytes): Read<WireEndpoint> {
    var (id, b) :- Read64(b);
    var (generation, b) :- Read64(b);
    var (kind, b) :- ReadEnum(EndpointKindOf, b);
    var (node, b) :- Read64(b);
    var (device, b) :- Read64(b);
    var (capability, b) :- ReadCapability(b);
    var (texts, b) :- ReadTexts(b);
    var (healthy, b) :- ReadBool(b);
    var (reachable, b) :- ReadBool(b);
    var (ready, b) :- ReadBool(b);
    var (owner, b) :- ReadOwner(b);
    var (failureDomain, b) :- ReadStr(b);
    var (provenance, b) :- ReadEnum(ProvenanceOf, b);
    var (pcieRoot, b) :- ReadStr(b);
    var (numaDistance, b) :- ReadNuma(b);
    Got(WireEndpoint(id, generation, kind, node, device, capability, texts, healthy, reachable, ready, owner,
        failureDomain, provenance, pcieRoot, numaDistance), b)
  }

  predicate EndpointFits(e: WireEndpoint) {
    TextsCarried(e.texts) && |e.failureDomain| <= MAX_COUNT && |e.pcieRoot| <= MAX_COUNT
  }

  /** What of an endpoint reaches the other side. */
  function CarriedEndpoint(e: WireEndpoint): WireEndpoint {
    e.(capability := CarriedCapability(e.capability), numaDistance := NumaCarried(e.numaDistance))
  }

  // ----- links -----

  /** Floating-point figures travel as their 64-bit patterns. */
  datatype WireCongestion = WireCongestion(generation: u64, load: u64, penalty: u64, hardLimitExceeded: bool,
    provenance: Provenance)

  function PutCongestion(c: WireCongestion, rest: Bytes): (out: Bytes)
    ensures ReadCongestion(out) == Got(c, rest)
  {
    Put64(c.generation, Put64(c.load, Put64(c.penalty, PutBool(c.hardLimitExceeded,
      Put8(ProvenanceCode(c.provenance), rest)))))
  }

  function ReadCongestion(b: Bytes): Read<WireCongestion> {
    var (generation, b) :- Read64(b);
    var (load, b) :- Read64(b);
    var (penalty, b) :- Read64(b);
    var (hardLimitExceeded, b) :- ReadBool(b);
    var (provenance, b) :- ReadEnum(ProvenanceOf, b);
    Got(WireCongestion(generation, load, penalty, hardLimitExceeded, provenance), b)
  }

  function PutCapacity(c: Capacity, rest: Bytes): (out: Bytes)
    ensures ReadCapacity(out) == Got(c, rest)
  {
    Put64(c.generation, Put64(c.usable, Put64(c.headroom, Put8(ProvenanceCode(c.provenance), rest))))
  }

  function ReadCapacity(b: Bytes): Read<Capacity> {
    var (generation, b) :- Read64(b);
    var (usable, b) :- Read64(b);
    var (headroom, b) :- Read64(b);
    var (provenance, b) :- ReadEnum(ProvenanceOf, b);
    Got(Capacity(generation, usable, headroom, provenance), b)
  }

  datatype WireLink = WireLink(id: u64, generation: u64, source: u64, destination: u64, kind: LinkKind,
    transport: Transport, directed: bool, capacity: u64, effectiveBandwidth: u64, latency: u64, healthy: bool,
    congestion: WireCongestion, capacityEvidence: Capacity, topologyGeneration: u64, capabilityGeneration: u64,
    failureDomain: Bytes, workerBoot: u64, provenance: Provenance)

  function PutWireLink(l: WireLink, rest: Bytes): (out: Bytes)
    ensures |l.failureDomain| <= MAX_COUNT ==> ReadWireLink(out) == Got(l, rest)
  {
    Put64(l.id, Put64(l.generation, Put64(l.source, Put64(l.destination, Put8(LinkKindCode(l.kind),
      Put8(TransportCode(l.transport), PutBool(l.directed, Put64(l.capacity, Put64(l.effectiveBandwidth,
      Put64(l.latency, PutBool(l.healthy, PutCongestion(l.congestion, PutCapacity(l.capacityEvidence,
      Put64(l.topologyGeneration, Put64(l.capabilityGeneration, PutStr(l.failureDomain, Put64(l.workerBoot,
      Put8(ProvenanceCode(l.provenance), rest))))))))))))))))))
  }

  function ReadWireLink(b: Bytes): Read<WireLink> {
    var (id, b) :- Read64(b);
    var (generation, b) :- Read64(b);
    var (source, b) :- Read64(b);
    var (destination, b) :- Read64(b);
    var (kind, b) :- ReadEnum(LinkKindOf, b);
    var (transport, b) :- ReadEnum(TransportOf, b);
    var (directed, b) :- ReadBool(b);
    var (capacity, b) :- Read64(b);
    var (effectiveBandwidth, b) :- Read64(b);
    var (latency, b) :- Read64(b);
    var (healthy, b) :- ReadBool(b);
    var (congestion, b) :- ReadCongestion(b);
    var (capacityEvidence, b) :- ReadCapacity(b);
    var (topologyGeneration, b) :- Read64(b);
    var (capabilityGeneration, b) :- Read64(b);
    var (failureDomain, b) :- ReadStr(b);
    var (workerBoot, b) :- Read64(b);
    var (provenance, b) :- ReadEnum(ProvenanceOf, b);
    Got(WireLink(id, generation, source, destination, kind, transport, directed, capacity, effectiveBandwidth,
        latency, healthy, congestion, capacityEvidence, topologyGeneration, capabilityGeneration, failureDomain,
        workerBoot, provenance), b)
  }

  // ----- requests -----

  datatype Permissions = Permissions(staging: bool, hostStaging: bool, storageStaging: bool, relay: bool,
    multicast: bool)

  function PutPermissions(p: Permissions, rest: Bytes): (out: Bytes)
    ensures ReadPermissions(out) == Got(p, rest)
  {
    PutBool(p.staging, PutBool(p.hostStaging, PutBool(p.storageStaging, PutBool(p.relay, PutBool(p.multicast,
      rest)))))
  }

  function ReadPermissions(b: Bytes): Read<Permissions> {
    var (staging, b) :- ReadBool(b);
    var (hostStaging, b) :- ReadBool(b);
    var (storageStaging, b) :- ReadBool(b);
    var (relay, b) :- ReadBool(b);
    var (multicast, b) :- ReadBool(b);
    Got(Permissions(staging, hostStaging, storageStaging, relay, multicast), b)
  }

  datatype Group = Group(shape: CollectiveShape, count: u32, destinations: seq<u64>, participants: seq<u64>)

  function PutGroup(g: Group, rest: Bytes): (out: Bytes)
    ensures |g.destinations| <= MAX_COUNT && |g.participants| <= MAX_COUNT ==> ReadGroup(out) == Got(g, rest)
  {
    Put8(CollectiveShapeCode(g.shape), PutCount(g.count, PutIds(g.destinations, PutIds(g.participants, rest))))
  }

  function ReadGroup(b: Bytes): Read<Group> {
    var (shape, b) :- ReadEnum(CollectiveShapeOf, b);
    var (count, b) :- ReadCount(b);
    var (destinations, b) :- ReadIds(b);
    var (participants, b) :- ReadIds(b);
    Got(Group(shape, count, destinations, participants), b)
  }

  datatype Notes = Notes(provenance: Bytes, requiredFailureDomain: Bytes, preferredLocality: Bytes)

  function PutNotes(n: Notes, rest: Bytes): (out: Bytes)
    ensures NotesCarried(n) ==> ReadNotes(out) == Got(n, rest)
  {
    PutStr(n.provenance, PutStr(n.requiredFailureDomain, PutStr(n.preferredLocality, rest)))
  }

  function ReadNotes(b: Bytes): Read<Notes> {
    var (provenance, b) :- ReadStr(b);
    var (requiredFailureDomain, b) :- ReadStr(b);
    var (preferredLocality, b) :- ReadStr(b);
    Got(Notes(provenance, requiredFailureDomain, preferredLocality), b)
  }

  predicate NotesCarried(n: Notes) {
    |n.provenance| <= MAX_COUNT && |n.requiredFailureDomain| <= MAX_COUNT && |n.preferredLocality| <= MAX_COUNT
  }

  datatype WireRequest = WireRequest(id: u64, generation: u64, shape: RequestShape, source: u64, payloadSize:
    u64, direction: Direction, permissions: Permissions, maxHops: u32, maxStages: u32, priority: u32,
    policyGeneration: u64, allowed: set<Transport>, forbidden: set<Transport>, group: Group, notes: Notes)

  function PutWireRequest(q: WireRequest, rest: Bytes): (out: Bytes)
    ensures WireRequestFits(q) ==> ReadWireRequest(out) == Got(q, rest)
  {
    Put64(q.id, Put64(q.generation, Put8(RequestShapeCode(q.shape), Put64(q.source, Put64(q.payloadSize,
      Put8(DirectionCode(q.direction), PutPermissions(q.permissions, Put32(q.maxHops, Put32(q.maxStages,
      PutPriority(q.priority, Put64(q.policyGeneration, PutTransports(q.allowed, PutTransports(q.forbidden,
      PutGroup(q.group, PutNotes(q.notes, rest)))))))))))))))
  }

  function ReadWireRequest(b: Bytes): Read<WireRequest> {
    var (id, b) :- Read64(b);
    var (generation, b) :- Read64(b);
    var (shape, b) :- ReadEnum(RequestShapeOf, b);
    var (source, b) :- Read64(b);
    var (payloadSize, b) :- Read64(b);
    var (direction, b) :- ReadEnum(DirectionOf, b);
    var (permissions, b) :- ReadPermissions(b);
    var (maxHops, b) :- Read32(b);
    var (maxStages, b) :- Read32(b);
    var (priority, b) :- ReadPriority(b);
    var (policyGeneration, b) :- Read64(b);
    var (allowed, b) :- ReadTransports(b);
    var (forbidden, b) :- ReadTransports(b);
    var (group, b) :- ReadGroup(b);
    var (notes, b) :- ReadNotes(b);
    Got(WireRequest(id, generation, shape, source, payloadSize, direction, permissions, maxHops, maxStages,
        priority, policyGeneration, allowed, forbidden, group, notes), b)
  }

  predicate WireRequestFits(q: WireRequest) {
    |q.group.destinations| <= MAX_COUNT && |q.group.participants| <= MAX_COUNT && NotesCarried(q.notes)
  }

  // ----- plan results -----

  datatype StageSummary = StageSummary(link: u64, source: u64, destination: u64, payload: u64)

  function PutStageSummary(s: StageSummary, rest: Bytes): (out: Bytes)
    ensures ReadStageSummary(out) == Got(s, rest)
  {
    Put64(s.link, Put64(s.source, Put64(s.destination, Put64(s.payload, rest))))
  }

  function ReadStageSummary(b: Bytes): Read<StageSummary> {
    var (link, b) :- Read64(b);
    var (source, b) :- Read64(b);
    var (destination, b) :- Read64(b);
    var (payload, b) :- Read64(b);
    Got(StageSummary(link, source, destination, payload), b)
  }

  function PutStageSummaries(ss: seq<StageSummary>, rest: Bytes): (out: Bytes)
    ensures |ss| <= MAX_COUNT ==> ReadStageSummaries(out) == Got(ss, rest)
  {
    assert |ss| <= MAX_COUNT ==> ReadList(ReadStageSummary, PutList(PutStageSummary, ss, rest)) == Got(ss, rest) by {
      if |ss| <= MAX_COUNT { ListRoundTrip(PutStageSummary, ReadStageSummary, ss, rest); }
    }
    PutList(PutStageSummary, ss, rest)
  }

  function ReadStageSummaries(b: Bytes): Read<seq<StageSummary>> { ReadList(ReadStageSummary, b) }

  datatype PathSummary = PathSummary(id: u64, payload: u64, stages: seq<StageSummary>)

  function PutPathSummary(p: PathSummary, rest: Bytes): (out: Bytes)
    ensures |p.stages| <= MAX_COUNT ==> ReadPathSummary(out) == Got(p, rest)
  {
    Put64(p.id, Put64(p.payload, PutStageSummaries(p.stages, rest)))
  }

  function ReadPathSummary(b: Bytes): Read<PathSummary> {
    var (id, b) :- Read64(b);
    var (payload, b) :- Read64(b);
    var (stages, b) :- ReadStageSummaries(b);
    Got(PathSummary(id, payload, stages), b)
  }

  predicate PathSummariesFit(ps: seq<PathSummary>) {
    |ps| <= MAX_COUNT && forall p :: p in ps ==> |p.stages| <= MAX_COUNT
  }

  lemma PathSummariesRoundTrip(ps: seq<PathSummary>, rest: Bytes)
    requires PathSummariesFit(ps)
    ensures ReadList(ReadPathSummary, PutList(PutPathSummary, ps, rest)) == Got(ps, rest)
  {
    hide PutPathSummary, ReadPathSummary;
    forall p | p in ps ensures Inverts(PutPathSummary, ReadPathSummary, p) {
      forall r ensures ReadPathSummary(PutPathSummary(p, r)) == Got(p, r) {}
    }
    ListRoundTrip(PutPathSummary, ReadPathSummary, ps, rest);
  }

  function PutPathSummaries(ps: seq<PathSummary>, rest: Bytes): (out: Bytes)
    ensures PathSummariesFit(ps) ==> ReadPathSummaries(out) == Got(ps, rest)
  {
    assert PathSummariesFit(ps) ==> ReadList(ReadPathSummary, PutList(PutPathSummary, ps, rest)) == Got(ps, rest) by {
      if PathSummariesFit(ps) { PathSummariesRoundTrip(ps, rest); }
    }
    PutList(PutPathSummary, ps, rest)
  }

  function ReadPathSummaries(b: Bytes): Read<seq<PathSummary>> { ReadList(ReadPathSummary, b) }

  datatype PlanSummary = PlanSummary(id: u64, generation: u64, requestId: u64, requestGeneration: u64,
    primaryPath: u64, paths: seq<PathSummary>, stages: seq<StageSummary>, endpoints: seq<(u64, u64)>)

  function PutPlanSummary(p: PlanSummary, rest: Bytes): (out: Bytes)
    ensures PlanSummaryFits(p) ==> ReadPlanSummary(out) == Got(p, rest)
  {
    Put64(p.id, Put64(p.generation, Put64(p.requestId, Put64(p.requestGeneration, Put64(p.primaryPath,
      PutPathSummaries(p.paths, PutStageSummaries(p.stages, PutPairs(p.endpoints, rest))))))))
  }

  function ReadPlanSummary(b: Bytes): Read<PlanSummary> {
    var (id, b) :- Read64(b);
    var (generation, b) :- Read64(b);
    var (requestId, b) :- Read64(b);
    var (requestGeneration, b) :- Read64(b);
    var (primaryPath, b) :- Read64(b);
    var (paths, b) :- ReadPathSummaries(b);
    var (stages, b) :- ReadStageSummaries(b);
    var (endpoints, b) :- ReadPairs(b);
    Got(PlanSummary(id, generation, requestId, requestGeneration, primaryPath, paths, stages, endpoints), b)
  }

  predicate PlanSummaryFits(p: PlanSummary) {
    PathSummariesFit(p.paths) && |p.stages| <= MAX_COUNT && |p.endpoints| <= MAX_COUNT
  }

  // ----- messages -----

  datatype Message =
    | HelloMsg(epoch: u64)
    | RegisterMsg(worker: u64, boot: u64, name: Bytes)
    | PublishEndpointMsg(worker: u64, boot: u64, endpoint: WireEndpoint)
    | PublishLinkMsg(worker: u64, boot: u64, link: WireLink)
    | PublishTopologyMsg(generation: u64)
    | PublishCapacityMsg(linkId: u64, capacity: Capacity)
    | PublishCongestionMsg(linkId: u64, congestion: WireCongestion)
    | SubmitRequestMsg(request: WireRequest)
    | QueryPlanMsg(planId: u64)
    | PlanResultMsg(plan: Option<PlanSummary>)
    | CommitRequestMsg(planId: u64)
    | CommitResultMsg(ok: bool, planId: u64)
    | RevalidateMsg(planId: u64)
    | SupersedeMsg(requestId: u64, planId: u64)
    | CancelMsg(requestId: u64, planId: u64)
    | ExecutionHandoffMsg(planId: u64)
    | ExecutionResultMsg(ok: bool, planId: u64, worker: u64, boot: u64)
    | ExecuteMsg(planId: u64, bytes: u64, worker: u64, boot: u64)
    | SaveMsg
    | ShutdownMsg
    | ErrorMsg(error: Bytes)

  function TypeOf(m: Message): MessageType {
    match m
    case HelloMsg(_) => Hello
    case RegisterMsg(_, _, _) => Register
    case PublishEndpointMsg(_, _, _) => PublishEndpoint
    case PublishLinkMsg(_, _, _) => PublishLink
    case PublishTopologyMsg(_) => PublishTopology
    case PublishCapacityMsg(_, _) => PublishCapacity
    case PublishCongestionMsg(_, _) => PublishCongestion
    case SubmitRequestMsg(_) => SubmitRequest
    case QueryPlanMsg(_) => QueryPlan
    case PlanResultMsg(_) => PlanResult
    case CommitRequestMsg(_) => CommitRequest
    case CommitResultMsg(_, _) => CommitResult
    case RevalidateMsg(_) => Revalidate
    case SupersedeMsg(_, _) => Supersede
    case CancelMsg(_, _) => Cancel
    case ExecutionHandoffMsg(_) => ExecutionHandoff
    case ExecutionResultMsg(_, _, _, _) => ExecutionResult
    case ExecuteMsg(_, _, _, _) => Execute
    case SaveMsg => Save
    case ShutdownMsg => Shutdown
    case ErrorMsg(_) => Error
  }

  /** A plan result says whether there is a plan, then why, then the plan. */
  function PutPlanResult(plan: Option<PlanSummary>, rest: Bytes): (out: Bytes)
    ensures (plan.Some? ==> PlanSummaryFits(plan.value)) ==> ReadPlanResult(out) == Got(plan, rest)
  {
    var feasibility := if plan.Some? then Feasible else RejectEndpoint;
    var summary := if plan.Some? then PutPlanSummary(plan.value, rest) else rest;
    PutBool(plan.Some?, Put8(FeasibilityCode(feasibility), summary))
  }

  function ReadPlanResult(b: Bytes): Read<Option<PlanSummary>> {
    var (ok, b) :- ReadBool(b);
    var (_, b) :- ReadEnum(FeasibilityOf, b);
    if !ok then Got(None, b)
    else
      var (plan, b) :- ReadPlanSummary(b);
      Got(Some(plan), b)
  }

  /** `encodeMessage`. */
  function PutMessage(m: Message, rest: Bytes): Bytes {
    match m
    case HelloMsg(epoch) => Put64(epoch, rest)
    case RegisterMsg(worker, boot, name) => Put64(worker, Put64(boot, PutStr(name, rest)))
    case PublishEndpointMsg(worker, boot, endpoint) => Put64(worker, Put64(boot, PutWireEndpoint(endpoint, rest)))
    case PublishLinkMsg(worker, boot, link) => Put64(worker, Put64(boot, PutWireLink(link, rest)))
    case PublishTopologyMsg(generation) => Put64(generation, rest)
    case PublishCapacityMsg(linkId, capacity) => Put64(linkId, PutCapacity(capacity, rest))
    case PublishCongestionMsg(linkId, congestion) => Put64(linkId, PutCongestion(congestion, rest))
    case SubmitRequestMsg(request) => PutWireRequest(request, rest)
    case PlanResultMsg(plan) => PutPlanResult(plan, rest)
    case CommitResultMsg(ok, planId) => PutBool(ok, Put64(planId, rest))
    case SupersedeMsg(requestId, planId) => Put64(requestId, Put64(planId, rest))
    case CancelMsg(requestId, planId) => Put64(requestId, Put64(planId, rest))
    case ExecutionResultMsg(ok, planId, worker, boot) => PutBool(ok, Put64(planId, Put64(worker, Put64(boot, rest))))
    case ExecuteMsg(planId, bytes, worker, boot) => Put64(planId, Put64(bytes, Put64(worker, Put64(boot, rest))))
    case SaveMsg => rest
    case ShutdownMsg => rest
    case ErrorMsg(error) => PutStr(error, rest)
    case QueryPlanMsg(planId) => Put64(planId, rest)
    case CommitRequestMsg(planId) => Put64(planId, rest)
    case RevalidateMsg(planId) => Put64(planId, rest)
    case ExecutionHandoffMsg(planId) => Put64(planId, rest)
  }

  /** `decodeMessage`; bytes after the fields are not looked at. */
  function ReadMessage(t: MessageType, b: Bytes): Read<Message> {
    match t
    case Hello => var (epoch, b) :- Read64(b); Got(HelloMsg(epoch), b)
    case Register =>
      var (worker, b) :- Read64(b);
      var (boot, b) :- Read64(b);
      var (name, b) :- ReadStr(b);
      Got(RegisterMsg(worker, boot, name), b)
    case PublishEndpoint =>
      var (worker, b) :- Read64(b);
      var (boot, b) :- Read64(b);
      var (endpoint, b) :- ReadWireEndpoint(b);
      Got(PublishEndpointMsg(worker, boot, endpoint), b)
    case PublishLink =>
      var (worker, b) :- Read64(b);
      var (boot, b) :- Read64(b);
      var (link, b) :- ReadWireLink(b);
      Got(PublishLinkMsg(worker, boot, link), b)
    case PublishTopology => var (generation, b) :- Read64(b); Got(PublishTopologyMsg(generation), b)
    case PublishCapacity =>
      var (linkId, b) :- Read64(b);
      var (capacity, b) :- ReadCapacity(b);
      Got(PublishCapacityMsg(linkId, capacity), b)
    case PublishCongestion =>
      var (linkId, b) :- Read64(b);
      var (congestion, b) :- ReadCongestion(b);
      Got(PublishCongestionMsg(linkId, congestion), b)
    case SubmitRequest => var (request, b) :- ReadWireRequest(b); Got(SubmitRequestMsg(request), b)
    case PlanResult => var (plan, b) :- ReadPlanResult(b); Got(PlanResultMsg(plan), b)
    case CommitResult =>
      var (ok, b) :- ReadBool(b);
      var (planId, b) :- Read64(b);
      Got(CommitResultMsg(ok, planId), b)
    case Supersede =>
      var (requestId, b) :- Read64(b);
      var (planId, b) :- Read64(b);
      Got(SupersedeMsg(requestId, planId), b)
    case Cancel =>
      var (requestId, b) :- Read64(b);
      var (planId, b) :- Read64(b);
      Got(CancelMsg(requestId, planId), b)
    case ExecutionResult =>
      var (ok, b) :- ReadBool(b);
      var (planId, b) :- Read64(b);
      var (worker, b) :- Read64(b);
      var (boot, b) :- Read64(b);
      Got(ExecutionResultMsg(ok, planId, worker, boot), b)
    case Execute =>
      var (planId, b) :- Read64(b);
      var (bytes, b) :- Read64(b);
      var (worker, b) :- Read64(b);
      var (boot, b) :- Read64(b);
      Got(ExecuteMsg(planId, bytes, worker, boot), b)
    case Save => Got(SaveMsg, b)
    case Shutdown => Got(ShutdownMsg, b)
    case Error => var (error, b) :- ReadStr(b); Got(ErrorMsg(error), b)
    case QueryPlan => var (planId, b) :- Read64(b); Got(QueryPlanMsg(planId), b)
    case CommitRequest => var (planId, b) :- Read64(b); Got(CommitRequestMsg(planId), b)
    case Revalidate => var (planId, b) :- Read64(b); Got(RevalidateMsg(planId), b)
    case ExecutionHandoff => var (planId, b) :- Read64(b); Got(ExecutionHandoffMsg(planId), b)
  }

  predicate MessageFits(m: Message) {
    match m
    case RegisterMsg(_, _, name) => |name| <= MAX_COUNT
    case PublishEndpointMsg(_, _, endpoint) => EndpointFits(endpoint)
    case PublishLinkMsg(_, _, link) => |link.failureDomain| <= MAX_COUNT
    case SubmitRequestMsg(request) => WireRequestFits(request)
    case PlanResultMsg(plan) => plan.Some? ==> PlanSummaryFits(plan.value)
    case ErrorMsg(error) => |error| <= MAX_COUNT
    case _ => true
  }

  function Carried(m: Message): Message {
    if m.PublishEndpointMsg? then m.(endpoint := CarriedEndpoint(m.endpoint)) else m
  }

  /** Every message within the limits arrives as what the wire carries of it, whatever bytes follow. */
  lemma MessageRoundTrip(m: Message, extra: Bytes)
    requires MessageFits(m)
    ensures ReadMessage(TypeOf(m), PutMessage(m, extra)) == Got(Carried(m), extra)
  {
    hide Put64, Read64, PutBool, ReadBool, PutStr, ReadStr, PutWireEndpoint, ReadWireEndpoint, PutWireLink,
      ReadWireLink, PutCapacity, ReadCapacity, PutCongestion, ReadCongestion, PutWireRequest, ReadWireRequest,
      PutPlanResult, ReadPlanResult, EndpointFits, WireRequestFits, PlanSummaryFits, CarriedEndpoint;
  }

  /** A message arrives unchanged exactly when it is not an endpoint publication, or one whose architecture
      ends in a NUL and whose NUMA distance is not negative. */
  lemma ArrivesUnchangedIff(m: Message)
    ensures Carried(m) == m <==>
      (m.PublishEndpointMsg? ==> m.endpoint.capability.arch[7] == 0 && m.endpoint.numaDistance >= 0)
  {
    if m.PublishEndpointMsg? {
      var a := m.endpoint.capability.arch;
      assert a == a[..7] + [a[7]];
      assert Terminated(a)[7] == 0;
    }
  }

  /** Sent in a frame and received with other bytes behind it, a message comes out whole. */
  lemma FramedMessageRoundTrip(m: Message, extra: Bytes)
    requires MessageFits(m) && |PutMessage(m, [])| <= MAX_PAYLOAD
    ensures var f := Decode(Encode(Frame(TypeOf(m), PutMessage(m, []))).value + extra);
      f.Some? && ReadMessage(f.value.kind, f.value.payload) == Got(Carried(m), [])
  {
    hide Decode, Encode, ReadMessage, PutMessage, Carried;
    DecodeOfEncode(Frame(TypeOf(m), PutMessage(m, [])), extra);
    MessageRoundTrip(m, []);
  }
}
