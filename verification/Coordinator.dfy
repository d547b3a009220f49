/** The coordinator as a state machine: every message handler of src/coordinator.cpp is one atomic step,
    except commit, which is two locked phases with the broker's acquire between them. */
module Coordinator {
  import opened Core
  import opened Model
  import opened Cost
  import opened Planner
  import opened Revalidation
  import opened Broker
  import opened Ieee
  import opened StoreCodec
  import opened StoreValidity

  type Socket = nat

  datatype Worker = Worker(boot: u64, sock: Socket, endpoints: seq<u64>, links: seq<u64>, alive: bool)

  /** `worker` and `boot` name the incarnation that owned the source endpoint when the plan was made. */
  datatype PlanRecord = PlanRecord(plan: Plan<Double>, state: PlanState, worker: u64, boot: u64)

  /** A commit between its two locked phases: before the broker was asked, and after it answered. */
  datatype Commit =
    | Asking(plan: u64, claims: seq<u64>, size: u64)
    | Answered(plan: u64, claims: seq<u64>, acquired: bool)

  datatype Config = Config(weights: Weights, bounds: Bounds)

  /** `crashed`: a handler threw, which ends the process. */
  datatype State = State(
    snap: Snapshot, broker: Ledger, plans: map<u64, PlanRecord>, currentByRequest: map<u64, u64>,
    cancelled: set<u64>, supersessions: seq<(u64, u64)>, requests: seq<Request>,
    socketToWorker: map<Socket, u64>, workers: map<u64, Worker>, fenced: set<(u64, u64)>,
    commits: map<Socket, Commit>, ids: Ids, crashed: bool)

  // ----- evidence -----

  /** `publishEndpoint`: replaces the entry with this id, or adds one. */
  function PutEndpoint(es: seq<Endpoint>, e: Endpoint): seq<Endpoint> {
    if es == [] then [e]
    else if es[0].id == e.id then [e] + es[1..]
    else [es[0]] + PutEndpoint(es[1..], e)
  }

  function PutLink(ls: seq<Link>, l: Link): seq<Link> {
    if ls == [] then [l]
    else if ls[0].id == l.id then [l] + ls[1..]
    else [ls[0]] + PutLink(ls[1..], l)
  }

  function MapLinks(f: Link -> Link, ls: seq<Link>): (r: seq<Link>)
    ensures |r| == |ls| && forall i :: 0 <= i < |r| ==> r[i] == f(ls[i])
  {
    seq(|ls|, i requires 0 <= i < |ls| => f(ls[i]))
  }

  function Disable(ids: seq<u64>, es: seq<Endpoint>): (r: seq<Endpoint>)
    ensures |r| == |es|
    ensures forall i :: 0 <= i < |r| ==>
      r[i] == if es[i].id in ids then es[i].(reachable := false, ready := false) else es[i]
  {
    seq(|es|, i requires 0 <= i < |es| =>
      if es[i].id in ids then es[i].(reachable := false, ready := false) else es[i])
  }

  function Without(ids: seq<u64>, ls: seq<Link>): seq<Link> {
    if ls == [] then []
    else Without(ids, ls[..|ls| - 1]) + if ls[|ls| - 1].id in ids then [] else [ls[|ls| - 1]]
  }

  /** `fenceWorker`: the worker's incarnation loses its authority for good. */
  function Fence(st: State, id: u64): State {
    var snap := st.snap.(workerBoots := st.snap.workerBoots - {id}, sourceBoots := st.snap.sourceBoots - {id});
    if id !in st.workers then st.(snap := snap)
    else
      var w := st.workers[id];
      st.(fenced := st.fenced + {(id, w.boot)},
          workers := st.workers[id := w.(alive := false)],
          snap := snap.(endpoints := Disable(w.endpoints, snap.endpoints),
                        links := Without(w.links, snap.links),
                        generations := snap.generations.(topology := Next64(snap.generations.topology))))
  }

  /** The publisher is a live worker speaking for its current boot. */
  predicate Authorized(st: State, worker: u64, boot: u64) {
    worker in st.workers && st.workers[worker].alive && st.workers[worker].boot == boot
  }

  // ----- handlers -----

  predicate AcceptsRegister(st: State, worker: u64, boot: u64) {
    worker != 0 && boot != 0 && (worker, boot) !in st.fenced
  }

  function Register(st: State, s: Socket, worker: u64, boot: u64): State {
    if !AcceptsRegister(st, worker, boot) then st
    else
      st.(workers := st.workers[worker := Worker(boot, s, [], [], true)],
          socketToWorker := st.socketToWorker[s := worker],
          snap := st.snap.(workerBoots := st.snap.workerBoots[worker := boot],
                           sourceBoots := st.snap.sourceBoots[worker := boot]))
  }

  function PublishEndpoint(st: State, worker: u64, boot: u64, endpoint: Endpoint): State {
    if !Authorized(st, worker, boot) then st
    else
      var e := endpoint.(worker := worker, workerBoot := boot);
      var w := st.workers[worker];
      st.(snap := st.snap.(endpoints := PutEndpoint(st.snap.endpoints, e)),
          workers := st.workers[worker := w.(endpoints := w.endpoints + [e.id])])
  }

  function PublishLink(st: State, worker: u64, boot: u64, link: Link): State {
    if !Authorized(st, worker, boot) then st
    else
      var l := link.(workerBoot := boot);
      var w := st.workers[worker];
      var g := st.snap.generations;
      st.(snap := st.snap.(links := PutLink(st.snap.links, l), generations := g.(topology := Next64(g.topology))),
          workers := st.workers[worker := w.(links := w.links + [l.id])])
  }

  /** A named publisher must be authorized; an anonymous one is not checked. */
  predicate AcceptsEvidence(st: State, worker: u64, boot: u64) {
    worker == 0 || Authorized(st, worker, boot)
  }

  function PublishCapacity(st: State, worker: u64, boot: u64, link: u64, capacity: Capacity): State {
    if !AcceptsEvidence(st, worker, boot) then st
    else
      var g := st.snap.generations;
      var update := (l: Link) => if l.id == link then l.(capacityEvidence := capacity) else l;
      st.(snap := st.snap.(links := MapLinks(update, st.snap.links), generations := g.(capacity := Next64(g.capacity))))
  }

  function PublishCongestion(st: State, worker: u64, boot: u64, link: u64, congestion: Congestion): State {
    if !AcceptsEvidence(st, worker, boot) then st
    else
      var g := st.snap.generations;
      var update := (l: Link) => if l.id == link then l.(congestion := congestion) else l;
      st.(snap := st.snap.(links := MapLinks(update, st.snap.links),
                           generations := g.(congestion := Next64(g.congestion))))
  }

  /** The incarnation stamped on the first endpoint with this id. */
  function OwnerOf(es: seq<Endpoint>, id: u64): (u64, u64) {
    if es == [] then (0, 0)
    else if es[0].id == id then (es[0].worker, es[0].workerBoot)
    else OwnerOf(es[1..], id)
  }

  function NewRecord(plan: Plan<Double>, es: seq<Endpoint>): PlanRecord {
    var owner := if plan.orderedStages == [] then (0, 0) else OwnerOf(es, plan.orderedStages[0].source);
    PlanRecord(plan, PlanReady, owner.0, owner.1)
  }

  predicate AcceptsRequest(st: State, req: Request) { req.id != 0 && req.id !in st.cancelled }

  /** The request is recorded, and so is what the planner made of it. */
  function Adopt(st: State, req: Request, p: Planned): State {
    var received := st.(requests := st.requests + [req]);
    if p.Threw? then received.(crashed := true)
    else if !p.outcome.success || p.outcome.plan.None? then received.(ids := p.ids)
    else
      var plan := p.outcome.plan.value;
      received.(ids := p.ids, plans := st.plans[plan.id := NewRecord(plan, st.snap.endpoints)],
                currentByRequest := st.currentByRequest[req.id := plan.id])
  }

  function SubmitRequest(cfg: Config, st: State, req: Request): State {
    if !AcceptsRequest(st, req) then st
    else Adopt(st, req, PlanCommunication(req, st.snap, cfg.weights, cfg.bounds, st.ids))
  }

  predicate Committable(s: PlanState) { s.PlanReady? || s.AwaitingResourceCommit? }

  predicate AcceptsCommit(st: State, plan: u64) {
    plan in st.plans && Committable(st.plans[plan].state) && st.plans[plan].plan.requestId !in st.cancelled
  }

  function SetState(st: State, plan: u64, s: PlanState): State
    requires plan in st.plans
  {
    st.(plans := st.plans[plan := st.plans[plan].(state := s)])
  }

  function CommitSize(plan: Plan<Double>): u64 {
    if plan.orderedStages == [] then 1024 else plan.orderedStages[0].payload
  }

  /** First locked phase of `handleCommit`. */
  function BeginCommit(st: State, s: Socket, plan: u64): State {
    if !AcceptsCommit(st, plan) then st
    else
      var p := st.plans[plan].plan;
      SetState(st, plan, AwaitingResourceCommit)
        .(commits := st.commits[s := Asking(plan, p.requiredResourceClaims, CommitSize(p))])
  }

  function Repeat(size: u64, n: nat): (r: seq<u64>)
    ensures |r| == n && forall i :: 0 <= i < n ==> r[i] == size
  {
    seq(n, _ => size)
  }

  /** The broker acquire, outside the lock. */
  function AskBroker(st: State, s: Socket): State
    requires s in st.commits && st.commits[s].Asking?
  {
    var c := st.commits[s];
    var (ledger, ok) := Acquire(st.broker, c.claims, Repeat(c.size, |c.claims|));
    st.(broker := ledger, commits := st.commits[s := Answered(c.plan, c.claims, ok)])
  }

  /** The plan may no longer be committed. */
  predicate CommitLost(st: State, rec: PlanRecord) {
    rec.plan.requestId in st.cancelled || rec.state.Cancelled? || rec.state.Superseded? || rec.state.Retired?
  }

  function ReleaseIf(st: State, held: bool, claims: seq<u64>): State {
    if held then st.(broker := Release(st.broker, claims)) else st
  }

  /** Second locked phase. */
  function EndCommit(st: State, s: Socket): State
    requires s in st.commits && st.commits[s].Answered?
  {
    var c := st.commits[s];
    var free := st.(commits := st.commits - {s});
    if c.plan !in st.plans then ReleaseIf(free, c.acquired, c.claims)
    else if CommitLost(st, st.plans[c.plan]) then
      SetState(ReleaseIf(free, c.acquired, c.claims), c.plan, Cancelled)
    else if !c.acquired then SetState(free, c.plan, Failed)
    else SetState(free, c.plan, Committed)
  }

  function Revalidate(st: State, plan: u64): State {
    if plan !in st.plans then st
    else if PlanVerdict(st.plans[plan].plan, st.snap).None? then SetState(st, plan, AwaitingExecution)
    else SetState(st, plan, RevalidationRequired)
  }

  function Handoff(st: State, plan: u64): State {
    if plan !in st.plans then st
    else if PlanVerdict(st.plans[plan].plan, st.snap).None? then SetState(st, plan, Active)
    else SetState(st, plan, RevalidationRequired)
  }

  /** A result that names a worker must come from the incarnation the plan was made for. */
  predicate AcceptsResult(st: State, plan: u64, worker: u64, boot: u64) {
    && plan in st.plans && st.plans[plan].state.Active?
    && (worker == 0 || (st.plans[plan].worker == worker && st.plans[plan].boot == boot))
  }

  function ExecutionResult(st: State, plan: u64, worker: u64, boot: u64, ok: bool): State {
    if AcceptsResult(st, plan, worker, boot) then SetState(st, plan, if ok then Completed else Failed) else st
  }

  predicate HoldsClaims(s: PlanState) {
    s.Committed? || s.AwaitingExecution? || s.Active? || s.AwaitingResourceCommit?
  }

  function Cancel(st: State, request: u64, plan: u64): State {
    var marked := st.(cancelled := st.cancelled + {request});
    if plan !in st.plans then marked
    else
      var rec := st.plans[plan];
      var freed := ReleaseIf(marked, HoldsClaims(rec.state), rec.plan.requiredResourceClaims);
      if rec.state.Completed? || rec.state.Cancelled? then freed else SetState(freed, plan, Cancelled)
  }

  function SupersedeNamed(st: State, plan: u64): State {
    if plan in st.plans && !st.plans[plan].state.Completed? && !st.plans[plan].state.Cancelled? then
      SetState(st, plan, Superseded).(broker := Release(st.broker, st.plans[plan].plan.requiredResourceClaims))
    else st
  }

  /** The request's current plan, when it is another one, is marked superseded by the named one. */
  function Supersede(st: State, request: u64, plan: u64): State {
    var named := SupersedeNamed(st, plan);
    if request in st.currentByRequest && st.currentByRequest[request] != plan
       && st.currentByRequest[request] in named.plans then
      var older := st.currentByRequest[request];
      SetState(named, older, Superseded).(supersessions := st.supersessions + [(older, plan)])
    else named
  }

  function Disconnect(st: State, s: Socket): State {
    if s !in st.socketToWorker then st
    else Fence(st, st.socketToWorker[s]).(socketToWorker := st.socketToWorker - {s})
  }

  // ----- steps and runs -----

  /** QUERY_PLAN, SAVE and SHUTDOWN leave this state alone and are not listed. */
  datatype Event =
    | ERegister(sock: Socket, worker: u64, boot: u64)
    | EPublishEndpoint(sock: Socket, worker: u64, boot: u64, endpoint: Endpoint)
    | EPublishLink(sock: Socket, worker: u64, boot: u64, link: Link)
    | EPublishCapacity(sock: Socket, worker: u64, boot: u64, linkId: u64, capacity: Capacity)
    | EPublishCongestion(sock: Socket, worker: u64, boot: u64, linkId: u64, congestion: Congestion)
    | ESubmitRequest(sock: Socket, request: Request)
    | EBeginCommit(sock: Socket, plan: u64)
    | EAskBroker(sock: Socket)
    | EEndCommit(sock: Socket)
    | ERevalidate(sock: Socket, plan: u64)
    | EHandoff(sock: Socket, plan: u64)
    | EResult(sock: Socket, plan: u64, worker: u64, boot: u64, ok: bool)
    | ECancel(sock: Socket, requestId: u64, plan: u64)
    | ESupersede(sock: Socket, requestId: u64, plan: u64)
    | EDisconnect(sock: Socket)

  /** A connection's thread handles one message at a time, so while its commit is in flight the only
      steps it takes are that commit's. */
  predicate Enabled(st: State, e: Event) {
    && !st.crashed
    && match e
       case EAskBroker(s) => s in st.commits && st.commits[s].Asking?
       case EEndCommit(s) => s in st.commits && st.commits[s].Answered?
       case _ => e.sock !in st.commits
  }

  function Step(cfg: Config, st: State, e: Event): State
    requires Enabled(st, e)
  {
    match e
    case ERegister(s, worker, boot) => Register(st, s, worker, boot)
    case EPublishEndpoint(_, worker, boot, endpoint) => PublishEndpoint(st, worker, boot, endpoint)
    case EPublishLink(_, worker, boot, link) => PublishLink(st, worker, boot, link)
    case EPublishCapacity(_, worker, boot, linkId, capacity) => PublishCapacity(st, worker, boot, linkId, capacity)
    case EPublishCongestion(_, worker, boot, linkId, congestion) =>
      PublishCongestion(st, worker, boot, linkId, congestion)
    case ESubmitRequest(_, request) => SubmitRequest(cfg, st, request)
    case EBeginCommit(s, plan) => BeginCommit(st, s, plan)
    case EAskBroker(s) => AskBroker(st, s)
    case EEndCommit(s) => EndCommit(st, s)
    case ERevalidate(_, plan) => Revalidate(st, plan)
    case EHandoff(_, plan) => Handoff(st, plan)
    case EResult(_, plan, worker, boot, ok) => ExecutionResult(st, plan, worker, boot, ok)
    case ECancel(_, requestId, plan) => Cancel(st, requestId, plan)
    case ESupersede(_, requestId, plan) => Supersede(st, requestId, plan)
    case EDisconnect(s) => Disconnect(st, s)
  }

  // ----- starting, with or without a store -----

  const FIRST: Generations := Generations(1, 1, 1, 1, 1, 1, 1, 1)

  const EMPTY_STATE: State := State(
    Snapshot(FIRST, 1, [], [], [], [], map[], map[], 1), Ledger(0x4000_0000, map[], map[], -1), map[], map[], {}, [],
    [], map[], map[], {}, map[], Ids(1, 1, 1), false)

  function LoadedComponent(c: CostComponent<u64>): CostComponent<Double> {
    CostComponent(c.factor, DoubleOf(c.weight), DoubleOf(c.value), c.provenance)
  }

  function LoadedCost(c: CostSummary<u64>): CostSummary<Double> {
    CostSummary(seq(|c.components|, i requires 0 <= i < |c.components| => LoadedComponent(c.components[i])),
                DoubleOf(c.total))
  }

  function LoadedPath(p: Path<u64>): Path<Double> {
    Path(p.id, p.generation, p.source, p.destination, p.stages, p.totalPayload, LoadedCost(p.cost), p.provenance,
         p.failureDomain, p.reason)
  }

  function LoadedPlan(p: Plan<u64>): Plan<Double> {
    Plan(p.id, p.generation, p.requestId, p.requestGeneration, p.shape, p.primaryPath, p.fallbackPaths,
         seq(|p.candidatePaths|, i requires 0 <= i < |p.candidatePaths| => LoadedPath(p.candidatePaths[i])),
         p.orderedStages, p.feasibility, p.bound, p.endpointGenerations, p.linkGenerations,
         p.requiredStagingResources, p.requiredResourceClaims, LoadedCost(p.cost), p.explanations, p.provenance,
         p.revalidationGeneration, p.revalidateBeforeExecute, p.handoffRequirement, p.createdProvenance,
         p.multicastDestinations, p.collectiveShape, p.collectiveParticipants, p.description)
  }

  function LoadRecords(st: State, recs: seq<Record>): State {
    if recs == [] then st
    else
      var before, rec := LoadRecords(st, recs[..|recs| - 1]), recs[|recs| - 1];
      before.(plans := before.plans[rec.plan.id := PlanRecord(LoadedPlan(rec.plan), rec.state, 0, 0)],
              currentByRequest := before.currentByRequest[rec.plan.requestId := rec.plan.id])
  }

  /** `loadStoreIfAny`: recovered records, a new epoch, and no dynamic evidence. */
  function Load(store: Store): State {
    LoadRecords(EMPTY_STATE, Recovered(store.plans))
      .(supersessions := store.supersessions, requests := store.requests,
        snap := EMPTY_STATE.snap.(epoch := Next64(store.epoch)))
  }

  ghost predicate Initial(st: State) {
    st == EMPTY_STATE || exists store :: StoreValid(store) && st == Load(store)
  }

  /** A run: the states before, between and after its steps. */
  datatype Run = Run(states: seq<State>, events: seq<Event>)

  ghost predicate IsRun(cfg: Config, r: Run) {
    && |r.states| == |r.events| + 1 && Initial(r.states[0])
    && forall i :: 0 <= i < |r.events| ==>
         Enabled(r.states[i], r.events[i]) && r.states[i + 1] == Step(cfg, r.states[i], r.events[i])
  }
}
