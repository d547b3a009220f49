/** Runs that go all the way: what the theorems about runs speak of does happen. */
module EndToEnd {
  import opened Core
  import opened Model
  import opened Sorting
  import opened Enumeration
  import opened SimplePaths
  import opened FeasibilityFilter
  import opened Cost
  import opened Planner
  import opened PlanFacts
  import opened FanOut
  import opened Revalidation
  import opened RevalidationTheorems
  import opened Broker
  import opened StoreCodec
  import opened StoreValidity
  import opened StoreFormat
  import opened StoreTheorems
  import opened Coordinator
  import opened CoordinatorInvariants
  import opened ExecutionHistory
  import Staleness
  import StoreSizes
  import Wire

  // ----- one link between two endpoints -----

  const WORKER: u64 := 7
  const BOOT: u64 := 9

  const HERE: Endpoint := Endpoint(1, 1, GpuDevice, 0, [], 0, {Tcp}, true, true, WORKER, BOOT, 0, 0)
  const THERE: Endpoint := HERE.(id := 2)

  const WIRE: Link := Link(
    5, 1, 1, 2, Tcp, true, 1000, 0, 10, true, Congestion(1, Fin(0.0), Fin(0.0), false, Measured),
    Capacity(1, 1000, 0, Measured), [], BOOT, Measured)

  const REQUEST: Request := Request(
    3, 1, PointToPoint, 1, [2], 64, Forward, true, true, false, true, false, {}, {}, [], 16, 16, 0,
    UnknownCollective, [], 0)

  const BOUNDS: Bounds := Bounds(64, 8, 4, 16, 2)

  const HOP: Hop := Hop(5, 1, 2)

  ghost predicate OneLink(snap: Snapshot) {
    && snap.endpoints == [HERE, THERE] && snap.links == [WIRE] && snap.reservations == []
    && snap.workerBoots == map[WORKER := BOOT]
  }

  lemma TwoDiffer<T>(s: seq<T>)
    requires Distinct(s) && |s| > 1
    ensures s[0] != s[1]
  {
  }

  lemma OneOfAKind<T>(s: seq<T>, x: T)
    requires Distinct(s) && forall i :: 0 <= i < |s| ==> s[i] == x
    ensures |s| <= 1
  {
    if |s| > 1 { TwoDiffer(s); }
  }

  lemma OnlyTheLink(hops: seq<Hop>)
    ensures Admissible([WIRE], 1, 2, BOUNDS, hops) <==> hops == [HOP]
  {
    if Admissible([WIRE], 1, 2, BOUNDS, hops) {
      forall i | 0 <= i < |hops| ensures hops[i] == HOP { assert Edge([WIRE], hops[i]); }
      OneOfAKind(hops, HOP);
    }
    assert WIRE in [WIRE] && Edge([WIRE], HOP);
  }

  lemma TheLinkIsEnumerated()
    ensures CandidatePath(1, 2, [HOP]) in Enumerate([WIRE], 1, 2, BOUNDS)
    ensures forall c :: c in Enumerate([WIRE], 1, 2, BOUNDS) ==> c == CandidatePath(1, 2, [HOP])
  {
    hide Enumerate, Admissible, CandidateLess;
    var r := Enumerate([WIRE], 1, 2, BOUNDS);
    EnumerationIsExact([WIRE], 1, 2, BOUNDS);
    OnlyTheLink([HOP]);
    forall i | 0 <= i < |r| ensures r[i] == CandidatePath(1, 2, [HOP]) {
      assert r[i] in r;
      OnlyTheLink(r[i].hops);
    }
    OneOfAKind(r, CandidatePath(1, 2, [HOP]));
  }

  lemma TheLinkIsFeasible(snap: Snapshot)
    requires OneLink(snap)
    ensures FeasiblePath(REQUEST, snap, BOUNDS, 1, 2, CandidatePath(1, 2, [HOP]))
  {
    hide Enumerate, VerdictOver;
    TheLinkIsEnumerated();
    var emap, lmap := EndpointMap(snap.endpoints), LinkMap(snap.links);
    EndpointMapFindsUnique(snap.endpoints, HERE);
    EndpointMapFindsUnique(snap.endpoints, THERE);
    LinkMapFindsUnique(snap.links, WIRE);
    assert emap[1] == HERE && emap[2] == THERE && lmap[5] == WIRE;
    assert Passes(REQUEST, snap, emap, lmap, [HOP], BOUNDS);
    VerdictDecides(REQUEST, snap, emap, lmap, [HOP], BOUNDS);
  }

  /** Whatever the weights, the request is planned, and the plan revalidates on its own snapshot. */
  lemma TheRequestIsPlanned(snap: Snapshot, w: Weights, ids: Ids)
    requires OneLink(snap)
    ensures Succeeds(REQUEST, snap, w, BOUNDS, ids)
    ensures Revalidates(ThePlan(REQUEST, snap, w, BOUNDS, ids), snap)
  {
    hide FeasiblePath, Succeeds, RankMinimal, Leads, Retained, Revalidates, Retainable, Enumerate, BuiltOver;
    TheLinkIsFeasible(snap);
    assert REQUEST.source == 1 && REQUEST.destinations[0] == 2;
    PointToPointIsExact(REQUEST, snap, w, BOUNDS, ids);
    SuccessIsBuilt(REQUEST, snap, w, BOUNDS, ids);
    var kept := Retained(REQUEST, snap, w, BOUNDS);
    forall k | 0 <= k < |kept| ensures |kept[k].path.hops| == 1 { KeptIsTheLink(snap, w, k); }
    KeptIsNotEmpty(snap, w, ids);
    DirectPlanRevalidates(REQUEST, snap, w, BOUNDS, ids);
  }

  lemma KeptIsNotEmpty(snap: Snapshot, w: Weights, ids: Ids)
    requires Succeeds(REQUEST, snap, w, BOUNDS, ids)
    ensures Retained(REQUEST, snap, w, BOUNDS) != []
  {
    hide RankedBetween, ReportsBetween, BestFirstAt, PointPlan, IdsAfter;
  }

  lemma KeptIsTheLink(snap: Snapshot, w: Weights, k: nat)
    requires OneLink(snap) && k < |Retained(REQUEST, snap, w, BOUNDS)|
    ensures |Retained(REQUEST, snap, w, BOUNDS)[k].path.hops| == 1
  {
    hide RankedBetween, Enumerate, Verdict, CandidateCost;
    var r := Retained(REQUEST, snap, w, BOUNDS)[k];
    assert r in RankedBetween(REQUEST, snap, w, BOUNDS, 1, 2);
    RankedAreRetainable(REQUEST, snap, w, BOUNDS, 1, 2);
    TheLinkIsEnumerated();
  }

  // ----- runs, event by event -----

  function Last(r: Run): State
    requires r.states != []
  {
    r.states[|r.states| - 1]
  }

  function Then(cfg: Config, r: Run, e: Event): Run
    requires r.states != [] && Enabled(Last(r), e)
  {
    Run(r.states + [Step(cfg, Last(r), e)], r.events + [e])
  }

  lemma ThenIsRun(cfg: Config, r: Run, e: Event)
    requires IsRun(cfg, r) && Enabled(Last(r), e)
    ensures IsRun(cfg, Then(cfg, r, e)) && Last(Then(cfg, r, e)) == Step(cfg, Last(r), e)
  {
    hide Step, Enabled, Initial;
    var n := Then(cfg, r, e);
    forall i | 0 <= i < |n.events|
      ensures Enabled(n.states[i], n.events[i]) && n.states[i + 1] == Step(cfg, n.states[i], n.events[i])
    {
      assert n.states[i] == r.states[i];
    }
  }

  function Published(): State {
    PublishLink(PublishEndpoint(PublishEndpoint(Register(EMPTY_STATE, 0, WORKER, BOOT), WORKER, BOOT, HERE),
                                WORKER, BOOT, THERE), WORKER, BOOT, WIRE)
  }

  lemma PublishedFacts()
    ensures OneLink(Published().snap)
    ensures Published().plans == map[] && Published().commits == map[] && Published().cancelled == {}
    ensures !Published().crashed && Published().ids == Ids(1, 1, 1) && Published().broker == EMPTY_STATE.broker
  {
    var s1 := Register(EMPTY_STATE, 0, WORKER, BOOT);
    var s2 := PublishEndpoint(s1, WORKER, BOOT, HERE);
    assert s2.snap.endpoints == [HERE];
    var s3 := PublishEndpoint(s2, WORKER, BOOT, THERE);
    assert [HERE][1..] == [] && THERE.(worker := WORKER, workerBoot := BOOT) == THERE;
    assert PutEndpoint([HERE], THERE) == [HERE] + PutEndpoint([], THERE);
    assert s3.snap.endpoints == [HERE, THERE];
    assert s3.snap.links == [];
  }

  /** A worker registers and publishes two endpoints and a link. */
  lemma PublishingRun(cfg: Config) returns (r: Run)
    ensures IsRun(cfg, r) && |r.events| == 4 && |r.states| == 5 && Last(r) == Published()
  {
    hide Register, PublishEndpoint, PublishLink, IsRun;
    r := Run([EMPTY_STATE], []);
    StartIsRun(cfg);
    PublicationsKeepGoing();
    var e1, e2, e3, e4 := ERegister(0, WORKER, BOOT), EPublishEndpoint(0, WORKER, BOOT, HERE),
                          EPublishEndpoint(0, WORKER, BOOT, THERE), EPublishLink(0, WORKER, BOOT, WIRE);
    ThenIsRun(cfg, r, e1);
    r := Then(cfg, r, e1);
    ThenIsRun(cfg, r, e2);
    r := Then(cfg, r, e2);
    ThenIsRun(cfg, r, e3);
    r := Then(cfg, r, e3);
    ThenIsRun(cfg, r, e4);
    r := Then(cfg, r, e4);
  }

  lemma StartIsRun(cfg: Config)
    ensures IsRun(cfg, Run([EMPTY_STATE], []))
  {
  }

  lemma PublicationsKeepGoing()
    ensures var s1 := Register(EMPTY_STATE, 0, WORKER, BOOT);
      var s2 := PublishEndpoint(s1, WORKER, BOOT, HERE);
      var s3 := PublishEndpoint(s2, WORKER, BOOT, THERE);
      && !s1.crashed && !s2.crashed && !s3.crashed
      && s1.commits == map[] && s2.commits == map[] && s3.commits == map[]
  {
    hide PutEndpoint;
  }

  /** Then the request is submitted, and plan 1 is ready. */
  lemma PlanningRun(w: Weights) returns (r: Run)
    ensures var cfg := Config(w, BOUNDS);
      && IsRun(cfg, r) && |r.events| == 5 && |r.states| == 6 && Ready(Last(r)) && Enters(r, 4, 1, PlanReady)
  {
    hide IsRun, SubmitRequest, Ready, Published;
    var cfg := Config(w, BOUNDS);
    r := PublishingRun(cfg);
    PublishedFacts();
    var e := ESubmitRequest(0, REQUEST);
    ThenIsRun(cfg, r, e);
    SubmittedIsReady(cfg, Published());
    ReadyFacts(SubmitRequest(cfg, Published(), REQUEST));
    r := Then(cfg, r, e);
  }

  /** Plan 1 is ready, binds what is published, and claims nothing. */
  ghost predicate Ready(st: State) {
    && !st.crashed && st.commits == map[] && st.cancelled == {} && 1 in st.plans && st.plans[1].state.PlanReady?
    && st.plans[1].plan.requestId == REQUEST.id && PlanVerdict(st.plans[1].plan, st.snap).None?
  }

  lemma ReadyFacts(st: State)
    requires Ready(st)
    ensures 1 in st.plans && st.plans[1].state.PlanReady? && !st.crashed && st.commits == map[] && st.cancelled == {}
    ensures st.plans[1].plan.requestId == REQUEST.id && PlanVerdict(st.plans[1].plan, st.snap).None?
  {
    hide PlanVerdict;
  }

  lemma SubmittedIsReady(cfg: Config, st: State)
    requires cfg.bounds == BOUNDS && OneLink(st.snap) && st.ids == Ids(1, 1, 1)
    requires !st.crashed && st.commits == map[] && st.cancelled == {}
    ensures Ready(SubmitRequest(cfg, st, REQUEST))
  {
    hide PlanVerdict, Revalidates, OneLink, Adopt, NewRecord, Succeeds, PlanCommunication;
    var after := SubmitRequest(cfg, st, REQUEST);
    TheRequestIsPlanned(st.snap, cfg.weights, st.ids);
    SubmittedPlan(cfg, st, REQUEST);
    SubmitTouchesOnlyPlans(cfg, st, REQUEST);
    var plan := ThePlan(REQUEST, st.snap, cfg.weights, BOUNDS, st.ids);
    PlanVerdictDecides(plan, st.snap);
    NewRecordIs(plan, st.snap.endpoints);
    SubmitGoesOn(cfg, st, REQUEST);
  }

  lemma NewRecordIs(plan: Plan<Double>, es: seq<Endpoint>)
    ensures NewRecord(plan, es).plan == plan && NewRecord(plan, es).state.PlanReady?
  {
  }

  lemma SubmitGoesOn(cfg: Config, st: State, req: Request)
    requires AddsPlan(cfg, st, req) && !st.crashed
    ensures !SubmitRequest(cfg, st, req).crashed
  {
    hide PlanCommunication, NewRecord;
  }

  // ----- to completion -----

  lemma HandedOff(st: State)
    requires Ready(st)
    ensures var after := Handoff(st, 1);
      !after.crashed && after.commits == map[] && after.plans == st.plans[1 := st.plans[1].(state := Active)]
  {
    hide PlanVerdict;
  }

  lemma Reported(st: State)
    requires 1 in st.plans && st.plans[1].state.Active?
    ensures ExecutionResult(st, 1, 0, 0, true).plans == st.plans[1 := st.plans[1].(state := Completed)]
  {
  }

  lemma HandoffRun(w: Weights) returns (r: Run)
    ensures var cfg := Config(w, BOUNDS);
      && IsRun(cfg, r) && |r.events| == 6 && |r.states| == 7 && Enters(r, 5, 1, Active)
      && !Last(r).crashed && Last(r).commits == map[]
  {
    hide IsRun, Ready, Handoff;
    var cfg := Config(w, BOUNDS);
    r := PlanningRun(w);
    ReadyFacts(Last(r));
    HandedOff(Last(r));
    ThenIsRun(cfg, r, EHandoff(0, 1));
    r := Then(cfg, r, EHandoff(0, 1));
  }

  /** With any weights some run registers a worker, publishes, plans, hands off and completes. */
  lemma SomeRunCompletes(w: Weights)
    ensures exists r ::
      && IsRun(Config(w, BOUNDS), r) && |r.events| == 7 && Enters(r, 5, 1, Active) && Enters(r, 6, 1, Completed)
  {
    hide IsRun, ExecutionResult;
    var cfg := Config(w, BOUNDS);
    var r := HandoffRun(w);
    var e := EResult(0, 1, 0, 0, true);
    Reported(Last(r));
    ThenIsRun(cfg, r, e);
    var r1 := Then(cfg, r, e);
    assert r1.states[5] == r.states[5] && r1.states[6] == r.states[6];
    assert Enters(r1, 5, 1, Active) && Enters(r1, 6, 1, Completed);
  }

  // ----- cancelled in flight -----

  lemma BeganCommit(st: State)
    requires Ready(st)
    ensures var after := BeginCommit(st, 5, 1);
      && !after.crashed && after.commits.Keys == {5} && after.commits[5].Asking? && after.commits[5].plan == 1
      && 1 in after.plans && after.plans[1].plan.requestId == REQUEST.id
  {
    hide PlanVerdict;
  }

  lemma CancelledMeanwhile(st: State)
    requires 1 in st.plans && !st.crashed
    ensures var after := Cancel(st, REQUEST.id, 1);
      && !after.crashed && after.commits == st.commits && REQUEST.id in after.cancelled
      && 1 in after.plans && after.plans[1].plan == st.plans[1].plan
  {
    hide Release;
  }

  lemma AskedAnyway(st: State)
    requires 5 in st.commits && st.commits[5].Asking? && !st.crashed
    ensures var after := AskBroker(st, 5); !after.crashed && 5 in after.commits && after.commits[5].Answered?
  {
    hide Acquire, Repeat;
  }

  /** The request is cancelled while the broker has yet to be asked for its plan's claims. */
  ghost predicate CancelledInFlight(st: State) {
    && !st.crashed && 5 in st.commits && st.commits[5].Asking? && st.commits[5].plan == 1 && 1 in st.plans
    && st.plans[1].plan.requestId in st.cancelled
  }

  lemma CancellingRun(w: Weights) returns (r: Run)
    ensures var cfg := Config(w, BOUNDS);
      IsRun(cfg, r) && |r.events| == 7 && |r.states| == 8 && CancelledInFlight(Last(r))
  {
    hide IsRun, Ready, BeginCommit, Cancel;
    var cfg := Config(w, BOUNDS);
    r := PlanningRun(w);
    ReadyFacts(Last(r));
    BeganCommit(Last(r));
    ThenIsRun(cfg, r, EBeginCommit(5, 1));
    r := Then(cfg, r, EBeginCommit(5, 1));
    CancelledMeanwhile(Last(r));
    ThenIsRun(cfg, r, ECancel(0, REQUEST.id, 1));
    r := Then(cfg, r, ECancel(0, REQUEST.id, 1));
  }

  /** Some run cancels a request between the two phases of its commit, and the commit then ends. */
  lemma SomeCommitIsCancelledInFlight(w: Weights)
    ensures exists r ::
      && IsRun(Config(w, BOUNDS), r) && |r.events| == 9 && CancelledInFlight(r.states[7])
      && r.events[7] == EAskBroker(5) && r.events[8] == EEndCommit(5)
  {
    hide IsRun, AskBroker, EndCommit;
    var cfg := Config(w, BOUNDS);
    var r := CancellingRun(w);
    AskedAnyway(Last(r));
    ThenIsRun(cfg, r, EAskBroker(5));
    var r1 := Then(cfg, r, EAskBroker(5));
    ThenIsRun(cfg, r1, EEndCommit(5));
    var r2 := Then(cfg, r1, EEndCommit(5));
    assert r2.states[7] == Last(r);
  }

  // ----- overtaken by evidence -----

  /** Some run plans, and then takes in congestion evidence. */
  lemma SomePlanIsOvertaken(w: Weights, c: Congestion)
    ensures exists r ::
      && IsRun(Config(w, BOUNDS), r) && |r.events| == 6 && Enters(r, 4, 1, PlanReady)
      && Staleness.Publishes(r.states[5], r.events[5])
  {
    hide IsRun, Ready, PublishCongestion;
    var cfg := Config(w, BOUNDS);
    var r := PlanningRun(w);
    ReadyFacts(Last(r));
    var e := EPublishCongestion(0, 0, 0, 5, c);
    ThenIsRun(cfg, r, e);
    var r1 := Then(cfg, r, e);
    assert r1.states[4] == r.states[4] && r1.states[5] == Last(r);
  }

  // ----- where authority is not what it seems -----

  function Registered(worker: u64, first: u64, second: u64): State {
    Register(Register(EMPTY_STATE, 0, worker, first), 1, worker, second)
  }

  ghost predicate Idle(st: State) { !st.crashed && st.commits == map[] }

  lemma RegisteredFacts(worker: u64, first: u64, second: u64)
    requires worker != 0 && first != 0 && second != 0 && first != second
    ensures var st := Registered(worker, first, second);
      && Idle(Register(EMPTY_STATE, 0, worker, first)) && Idle(st)
      && Authorized(st, worker, second) && st.fenced == {}
      && 0 in st.socketToWorker && st.socketToWorker[0] == worker
  {
  }

  /** A worker registers, and registers again from another connection with a new boot. */
  lemma RegisteringRun(cfg: Config, worker: u64, first: u64, second: u64) returns (r: Run)
    requires worker != 0 && first != 0 && second != 0 && first != second
    ensures IsRun(cfg, r) && r.events == [ERegister(0, worker, first), ERegister(1, worker, second)]
    ensures |r.states| == 3 && Last(r) == Registered(worker, first, second)
  {
    hide Register, IsRun;
    r := Run([EMPTY_STATE], []);
    StartIsRun(cfg);
    RegisteredFacts(worker, first, second);
    ThenIsRun(cfg, r, ERegister(0, worker, first));
    r := Then(cfg, r, ERegister(0, worker, first));
    ThenIsRun(cfg, r, ERegister(1, worker, second));
    r := Then(cfg, r, ERegister(1, worker, second));
  }

  /** A new boot does not fence the one it replaces: the old boot registers again and takes over. */
  lemma SomeOldBootReturns(cfg: Config, worker: u64, first: u64, second: u64)
    requires worker != 0 && first != 0 && second != 0 && first != second
    ensures exists r ::
      && IsRun(cfg, r)
      && r.events == [ERegister(0, worker, first), ERegister(1, worker, second), ERegister(2, worker, first)]
      && Authorized(r.states[2], worker, second)
      && Authorized(r.states[3], worker, first) && !Authorized(r.states[3], worker, second)
  {
    hide IsRun, Registered;
    var r := RegisteringRun(cfg, worker, first, second);
    RegisteredFacts(worker, first, second);
    var e := ERegister(2, worker, first);
    ThenIsRun(cfg, r, e);
    var r1 := Then(cfg, r, e);
    assert r1.states[2] == Last(r) && r1.states[3] == Register(Last(r), 2, worker, first);
  }

  /** Losing the connection of the replaced boot fences the boot that replaced it, and that one only. */
  lemma SomeNewBootIsFenced(cfg: Config, worker: u64, first: u64, second: u64)
    requires worker != 0 && first != 0 && second != 0 && first != second
    ensures exists r ::
      && IsRun(cfg, r) && r.events == [ERegister(0, worker, first), ERegister(1, worker, second), EDisconnect(0)]
      && Authorized(r.states[2], worker, second)
      && !Authorized(r.states[3], worker, second) && r.states[3].fenced == {(worker, second)}
  {
    hide IsRun, Registered;
    var r := RegisteringRun(cfg, worker, first, second);
    RegisteredFacts(worker, first, second);
    ThenIsRun(cfg, r, EDisconnect(0));
    var r1 := Then(cfg, r, EDisconnect(0));
    assert r1.states[2] == Last(r) && r1.states[3] == Disconnect(Last(r), 0);
  }

  // ----- an accepted store -----

  /** The empty store of any epoch is written and accepted. */
  lemma SomeStoreIsAccepted(epoch: u64)
    ensures Parse(Serialize(Store(epoch, [], [], []))).Parsed?
  {
    hide Parse, Serialize, StoreFits, StoreValid, PutBody;
    var s := Store(epoch, [], [], []);
    EmptyBody(epoch);
    EmptyStoreIsFine(epoch);
    StoreRoundTrip(s);
  }

  lemma EmptyStoreIsFine(epoch: u64)
    ensures StoreFits(Store(epoch, [], [], [])) && StoreValid(Store(epoch, [], [], []))
  {
    hide RecordFits, RecordValid;
  }

  lemma EmptyBody(epoch: u64)
    ensures |PutBody(Store(epoch, [], [], []))| == 20
  {
    hide PutRecord, PutRequest, PutPair, Wire.Put64, Wire.Put32;
    StoreSizes.Sizes64();
  }
}
