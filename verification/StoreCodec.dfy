/** The store format of src/persistence.cpp: nested records behind a checksummed frame. Cost figures are
    raw 64-bit patterns. */
module StoreCodec {
  import opened Core
  import opened Model
  import opened EnumCodes
  import opened Wire

  datatype Record = Record(plan: Plan<u64>, state: PlanState)

  datatype Store = Store(epoch: u64, plans: seq<Record>, supersessions: seq<(u64, u64)>, requests: seq<Request>)

  const MAGIC: u32 := 0x43504C52
  const VERSION: u32 := 1
  const HEADER: nat := 24

  function ReadText(b: Bytes): (r: Read<Bytes>)
    ensures r.Got? ==> |r.value| <= MAX_COUNT
  {
    As(ReadStr(b), Corruption)
  }

  function PutPair(p: (u64, u64), rest: Bytes): (b: Bytes)
    ensures ReadPair(b) == Got(p, rest)
  {
    Put64(p.0, Put64(p.1, rest))
  }

  function ReadPair(b: Bytes): Read<(u64, u64)> {
    var (x, b) :- Read64(b);
    var (y, b) :- Read64(b);
    Got((x, y), b)
  }

  // ----- costs -----

  function PutComponent(c: CostComponent<u64>, rest: Bytes): (b: Bytes)
    ensures ReadComponent(b) == Got(c, rest)
  {
    Put8(CostFactorCode(c.factor), Put64(c.weight, Put64(c.value, Put8(ProvenanceCode(c.provenance), rest))))
  }

  function ReadComponent(b: Bytes): Read<CostComponent<u64>> {
    var (factor, b) :- ReadEnum(CostFactorOf, b);
    var (weight, b) :- Read64(b);
    var (value, b) :- Read64(b);
    var (provenance, b) :- ReadEnum(ProvenanceOf, b);
    Got(CostComponent(factor, weight, value, provenance), b)
  }

  function PutCost(c: CostSummary<u64>, rest: Bytes): Bytes {
    PutList(PutComponent, c.components, Put64(c.total, rest))
  }

  function ReadCost(b: Bytes): Read<CostSummary<u64>> {
    var (components, b) :- ReadList(ReadComponent, b);
    var (total, b) :- Read64(b);
    Got(CostSummary(components, total), b)
  }

  function ReadCostField(b: Bytes): Read<CostSummary<u64>> { As(ReadCost(b), Corruption) }

  predicate CostFits(c: CostSummary<u64>) { |c.components| <= MAX_COUNT }

  lemma CostRoundTrip(c: CostSummary<u64>, rest: Bytes)
    requires CostFits(c)
    ensures ReadCost(PutCost(c, rest)) == Got(c, rest)
  {
    ListRoundTrip(PutComponent, ReadComponent, c.components, Put64(c.total, rest));
  }

  // ----- stages -----

  function PutStage(s: Stage, rest: Bytes): (b: Bytes)
    ensures StageFits(s) ==> ReadStage(b) == Got(s, rest)
  {
    Put64(s.id, Put64(s.generation, Put64(s.source, Put64(s.destination, Put64(s.link,
      Put8(TransportCode(s.transport), Put64(s.payload, Put64(s.expectedBandwidth, Put64(s.expectedLatency,
      Put64(s.stagingResource, PutBool(s.requiresAuthority, Put8(ProvenanceCode(s.provenance),
      PutStr(s.description, rest)))))))))))))
  }

  function ReadStage(b: Bytes): (r: Read<Stage>)
    ensures r.Got? ==> StageFits(r.value)
  {
    var (id, b) :- Read64(b);
    var (generation, b) :- Read64(b);
    var (source, b) :- Read64(b);
    var (destination, b) :- Read64(b);
    var (link, b) :- Read64(b);
    var (transport, b) :- ReadEnum(TransportOf, b);
    var (payload, b) :- Read64(b);
    var (bandwidth, b) :- Read64(b);
    var (latency, b) :- Read64(b);
    var (staging, b) :- Read64(b);
    var (authority, b) :- ReadBool(b);
    var (provenance, b) :- ReadEnum(ProvenanceOf, b);
    var (description, b) :- ReadStr(b);
    Got(Stage(id, generation, source, destination, link, transport, payload, bandwidth, latency, staging, authority,
              provenance, description), b)
  }

  predicate StageFits(s: Stage) { |s.description| <= MAX_COUNT }

  function ReadStageField(b: Bytes): Read<Stage> { As(ReadStage(b), Corruption) }

  // ----- paths -----

  function PutPath(p: Path<u64>, rest: Bytes): Bytes {
    Put64(p.id, Put64(p.generation, Put64(p.source, Put64(p.destination, Put64(p.totalPayload,
      Put8(ProvenanceCode(p.provenance), PutList(PutStage, p.stages,
      PutCost(p.cost, PutStr(p.failureDomain, PutStr(p.reason, rest))))))))))
  }

  function ReadPath(b: Bytes): Read<Path<u64>> {
    var (id, b) :- Read64(b);
    var (generation, b) :- Read64(b);
    var (source, b) :- Read64(b);
    var (destination, b) :- Read64(b);
    var (payload, b) :- Read64(b);
    var (provenance, b) :- ReadEnum(ProvenanceOf, b);
    var (stages, b) :- ReadList(ReadStage, b);
    var (cost, b) :- ReadCost(b);
    var (failureDomain, b) :- ReadStr(b);
    var (reason, b) :- ReadStr(b);
    Got(Path(id, generation, source, destination, stages, payload, cost, provenance, failureDomain, reason), b)
  }

  predicate StagesFit(stages: seq<Stage>) {
    |stages| <= MAX_COUNT && forall s :: s in stages ==> StageFits(s)
  }

  predicate PathFits(p: Path<u64>) {
    StagesFit(p.stages) && CostFits(p.cost) && |p.failureDomain| <= MAX_COUNT && |p.reason| <= MAX_COUNT
  }

  function ReadPathField(b: Bytes): Read<Path<u64>> { As(ReadPath(b), Corruption) }

  lemma StagesRoundTrip(stages: seq<Stage>, rest: Bytes)
    requires StagesFit(stages)
    ensures ReadList(ReadStage, PutList(PutStage, stages, rest)) == Got(stages, rest)
    ensures ReadList(ReadStageField, PutList(PutStage, stages, rest)) == Got(stages, rest)
  {
    hide PutStage, ReadStage;
    ListRoundTrip(PutStage, ReadStage, stages, rest);
    ListRoundTrip(PutStage, ReadStageField, stages, rest);
  }

  lemma PathRoundTrip(p: Path<u64>, rest: Bytes)
    requires PathFits(p)
    ensures ReadPath(PutPath(p, rest)) == Got(p, rest)
  {
    hide PutList, ReadList, PutCost, ReadCost, StagesFit;
    var tail := PutStr(p.failureDomain, PutStr(p.reason, rest));
    CostRoundTrip(p.cost, tail);
    StagesRoundTrip(p.stages, PutCost(p.cost, tail));
  }

  lemma ReadPathFits(b: Bytes)
    ensures ReadPath(b).Got? ==> PathFits(ReadPath(b).value)
  {
    forall c ensures ReadList(ReadStage, c).Got? ==> StagesFit(ReadList(ReadStage, c).value) {
      ListRead(ReadStage, c, StageFits);
    }
  }

  // ----- plans, in the four parts the format writes one after the other -----

  datatype Head = Head(
    generation: u64, requestId: u64, requestGeneration: u64, shape: RequestShape, primaryPath: u64,
    feasibility: Feasibility, state: PlanState)

  function PutHead(h: Head, rest: Bytes): (b: Bytes)
    ensures ReadHead(b) == Got(h, rest)
  {
    Put64(h.generation, Put64(h.requestId, Put64(h.requestGeneration, Put8(RequestShapeCode(h.shape),
      Put64(h.primaryPath, Put8(FeasibilityCode(h.feasibility), Put8(PlanStateCode(h.state), rest)))))))
  }

  function ReadHead(b: Bytes): Read<Head> {
    var (generation, b) :- Read64(b);
    var (requestId, b) :- Read64(b);
    var (requestGeneration, b) :- Read64(b);
    var (shape, b) :- ReadEnum(RequestShapeOf, b);
    var (primaryPath, b) :- Read64(b);
    var (feasibility, b) :- ReadEnum(FeasibilityOf, b);
    var (state, b) :- ReadEnum(PlanStateOf, b);
    Got(Head(generation, requestId, requestGeneration, shape, primaryPath, feasibility, state), b)
  }

  datatype Routing = Routing(paths: seq<Path<u64>>, fallbacks: seq<u64>, stages: seq<Stage>)

  function PutRouting(r: Routing, rest: Bytes): Bytes {
    PutList(PutPath, r.paths, PutList(Put64, r.fallbacks, PutList(PutStage, r.stages, rest)))
  }

  function ReadRouting(b: Bytes): Read<Routing> {
    var (paths, b) :- ReadList(ReadPathField, b);
    var (fallbacks, b) :- ReadList(Read64, b);
    var (stages, b) :- ReadList(ReadStageField, b);
    Got(Routing(paths, fallbacks, stages), b)
  }

  predicate PathsFit(paths: seq<Path<u64>>) {
    |paths| <= MAX_COUNT && forall p :: p in paths ==> PathFits(p)
  }

  predicate RoutingFits(r: Routing) {
    PathsFit(r.paths) && |r.fallbacks| <= MAX_COUNT && StagesFit(r.stages)
  }

  lemma PathsRoundTrip(paths: seq<Path<u64>>, rest: Bytes)
    requires PathsFit(paths)
    ensures ReadList(ReadPathField, PutList(PutPath, paths, rest)) == Got(paths, rest)
  {
    hide PutPath, ReadPath, PathFits;
    forall p | p in paths ensures Inverts(PutPath, ReadPathField, p) {
      forall r ensures ReadPathField(PutPath(p, r)) == Got(p, r) { PathRoundTrip(p, r); }
    }
    ListRoundTrip(PutPath, ReadPathField, paths, rest);
  }

  lemma IdsRoundTrip(ids: seq<u64>, rest: Bytes)
    requires |ids| <= MAX_COUNT
    ensures ReadList(Read64, PutList(Put64, ids, rest)) == Got(ids, rest)
  {
    hide Put64;
    ListRoundTrip(Put64, Read64, ids, rest);
  }

  lemma RoutingRoundTrip(r: Routing, rest: Bytes)
    requires RoutingFits(r)
    ensures ReadRouting(PutRouting(r, rest)) == Got(r, rest)
  {
    hide PutList, ReadList, PathsFit, StagesFit;
    var b2 := PutList(PutStage, r.stages, rest);
    var b1 := PutList(Put64, r.fallbacks, b2);
    StagesRoundTrip(r.stages, rest);
    IdsRoundTrip(r.fallbacks, b2);
    PathsRoundTrip(r.paths, b1);
  }

  lemma ReadRoutingFits(b: Bytes)
    ensures ReadRouting(b).Got? ==> RoutingFits(ReadRouting(b).value)
  {
    hide ReadPath, ReadStage, PathFits, StageFits;
    forall c ensures ReadPathField(c).Got? ==> PathFits(ReadPathField(c).value) { ReadPathFits(c); }
    forall c ensures ReadList(ReadPathField, c).Got? ==> PathsFit(ReadList(ReadPathField, c).value) {
      ListRead(ReadPathField, c, PathFits);
    }
    forall c ensures ReadList(ReadStageField, c).Got? ==> StagesFit(ReadList(ReadStageField, c).value) {
      ListRead(ReadStageField, c, StageFits);
    }
  }

  datatype Binding = Binding(
    bound: Generations, endpoints: seq<(u64, u64)>, links: seq<(u64, u64)>, staging: seq<u64>, claims: seq<u64>)

  function PutGenerations(g: Generations, rest: Bytes): (b: Bytes)
    ensures ReadGenerations(b) == Got(g, rest)
  {
    Put64(g.topology, Put64(g.capacity, Put64(g.reservation, Put64(g.congestion,
      Put64(g.capability, Put64(g.health, Put64(g.placement, Put64(g.authority, rest))))))))
  }

  function ReadGenerations(b: Bytes): Read<Generations> {
    var (topology, b) :- Read64(b);
    var (capacity, b) :- Read64(b);
    var (reservation, b) :- Read64(b);
    var (congestion, b) :- Read64(b);
    var (capability, b) :- Read64(b);
    var (health, b) :- Read64(b);
    var (placement, b) :- Read64(b);
    var (authority, b) :- Read64(b);
    Got(Generations(topology, capacity, reservation, congestion, capability, health, placement, authority), b)
  }

  function PutBinding(x: Binding, rest: Bytes): Bytes {
    PutGenerations(x.bound, PutList(PutPair, x.endpoints, PutList(PutPair, x.links,
      PutList(Put64, x.staging, PutList(Put64, x.claims, rest)))))
  }

  function ReadBinding(b: Bytes): Read<Binding> {
    var (bound, b) :- ReadGenerations(b);
    var (endpoints, b) :- ReadList(ReadPair, b);
    var (links, b) :- ReadList(ReadPair, b);
    var (staging, b) :- ReadList(Read64, b);
    var (claims, b) :- ReadList(Read64, b);
    Got(Binding(bound, endpoints, links, staging, claims), b)
  }

  predicate BindingFits(x: Binding) {
    && |x.endpoints| <= MAX_COUNT && |x.links| <= MAX_COUNT
    && |x.staging| <= MAX_COUNT && |x.claims| <= MAX_COUNT
  }

  lemma PairsRoundTrip(ps: seq<(u64, u64)>, rest: Bytes)
    requires |ps| <= MAX_COUNT
    ensures ReadList(ReadPair, PutList(PutPair, ps, rest)) == Got(ps, rest)
  {
    hide PutPair;
    ListRoundTrip(PutPair, ReadPair, ps, rest);
  }

  lemma BindingRoundTrip(x: Binding, rest: Bytes)
    requires BindingFits(x)
    ensures ReadBinding(PutBinding(x, rest)) == Got(x, rest)
  {
    hide PutList, ReadList, PutGenerations, ReadGenerations;
    var b4 := PutList(Put64, x.claims, rest);
    var b3 := PutList(Put64, x.staging, b4);
    var b2 := PutList(PutPair, x.links, b3);
    IdsRoundTrip(x.claims, rest);
    IdsRoundTrip(x.staging, b4);
    PairsRoundTrip(x.links, b3);
    PairsRoundTrip(x.endpoints, b2);
  }

  datatype Tail = Tail(
    cost: CostSummary<u64>, explanations: seq<Bytes>, provenance: Bytes, revalidation: u64, revalidate: bool,
    handoff: Bytes, multicast: seq<u64>, collective: CollectiveShape, participants: seq<u64>, description: Bytes,
    created: Bytes)

  function PutTail(t: Tail, rest: Bytes): Bytes {
    PutCost(t.cost, PutList(PutStr, t.explanations, PutStr(t.provenance, Put64(t.revalidation,
      PutBool(t.revalidate, PutStr(t.handoff, PutList(Put64, t.multicast,
      Put8(CollectiveShapeCode(t.collective), PutList(Put64, t.participants,
      PutStr(t.description, PutStr(t.created, rest)))))))))))
  }

  function ReadTail(b: Bytes): Read<Tail> {
    var (cost, b) :- ReadCostField(b);
    var (explanations, b) :- ReadList(ReadText, b);
    var (provenance, b) :- ReadText(b);
    var (revalidation, b) :- Read64(b);
    var (revalidate, b) :- ReadBool(b);
    var (handoff, b) :- ReadText(b);
    var (multicast, b) :- ReadList(Read64, b);
    var (collective, b) :- ReadEnum(CollectiveShapeOf, b);
    var (participants, b) :- ReadList(Read64, b);
    var (description, b) :- ReadText(b);
    var (created, b) :- ReadText(b);
    Got(Tail(cost, explanations, provenance, revalidation, revalidate, handoff, multicast, collective, participants,
             description, created), b)
  }

  predicate TextFits(s: Bytes) { |s| <= MAX_COUNT }

  predicate TextsFit(ts: seq<Bytes>) { |ts| <= MAX_COUNT && forall s :: s in ts ==> TextFits(s) }

  predicate TailFits(t: Tail) {
    && CostFits(t.cost) && TextsFit(t.explanations) && TextFits(t.provenance) && TextFits(t.handoff)
    && |t.multicast| <= MAX_COUNT && |t.participants| <= MAX_COUNT
    && TextFits(t.description) && TextFits(t.created)
  }

  lemma TextsRoundTrip(ts: seq<Bytes>, rest: Bytes)
    requires TextsFit(ts)
    ensures ReadList(ReadText, PutList(PutStr, ts, rest)) == Got(ts, rest)
  {
    hide PutStr, ReadStr;
    ListRoundTrip(PutStr, ReadText, ts, rest);
  }

  lemma TailRoundTrip(t: Tail, rest: Bytes)
    requires TailFits(t)
    ensures ReadTail(PutTail(t, rest)) == Got(t, rest)
  {
    hide PutList, ReadList, PutCost, ReadCost, PutStr, ReadStr, Put64, Read64, Put8, Read8, TextsFit;
    var b8 := PutStr(t.description, PutStr(t.created, rest));
    IdsRoundTrip(t.participants, b8);
    var b6 := Put8(CollectiveShapeCode(t.collective), PutList(Put64, t.participants, b8));
    CollectiveRoundTrip(t.collective, PutList(Put64, t.participants, b8));
    IdsRoundTrip(t.multicast, b6);
    var b1 := PutStr(t.provenance,
      Put64(t.revalidation, PutBool(t.revalidate, PutStr(t.handoff, PutList(Put64, t.multicast, b6)))));
    TextsRoundTrip(t.explanations, b1);
    CostRoundTrip(t.cost, PutList(PutStr, t.explanations, b1));
  }

  lemma CollectiveRoundTrip(c: CollectiveShape, rest: Bytes)
    ensures ReadEnum(CollectiveShapeOf, Put8(CollectiveShapeCode(c), rest)) == Got(c, rest)
  {
  }

  lemma ReadTailFits(b: Bytes)
    ensures ReadTail(b).Got? ==> TailFits(ReadTail(b).value)
  {
    hide ReadComponent, ReadStr, ReadBool, ReadEnum;
    forall c ensures ReadList(ReadText, c).Got? ==> TextsFit(ReadList(ReadText, c).value) {
      ListRead(ReadText, c, TextFits);
    }
  }
}
