/** What holds throughout every run of the coordinator, in every interleaving of its connections. */
module CoordinatorRuns {
  import opened Core
  import opened Model
  import opened FeasibilityFilter
  import opened Planner
  import opened Revalidation
  import opened Broker
  import opened StoreCodec
  import opened StoreValidity
  import opened Coordinator
  import opened CoordinatorInvariants

  // ----- the start -----

  lemma {:induction false} LoadedRecords(recs: seq<Record>)
    requires forall rec :: rec in recs ==> !Executable(rec.state)
    ensures var st := LoadRecords(EMPTY_STATE, recs);
      && st == EMPTY_STATE.(plans := st.plans, currentByRequest := st.currentByRequest)
      && forall id :: id in st.plans ==> st.plans[id].plan.id == id && !Executable(st.plans[id].state)
  {
    hide LoadedPlan;
    if recs != [] {
      var front, rec := recs[..|recs| - 1], recs[|recs| - 1];
      LoadedRecords(front);
      assert rec in recs && forall x :: x in front ==> x in recs;
      LoadedKeepsId(rec.plan);
    }
  }

  lemma LoadedKeepsId(p: Plan<u64>)
    ensures LoadedPlan(p).id == p.id
  {
  }

  /** A start with an empty or a recovered store has no evidence, and no plan that could be committed
      or is being executed. */
  lemma InitialFacts(st: State)
    requires Initial(st)
    ensures Authority(st) && UniqueEvidence(st) && PlansSound(st) && Numbered(st)
    ensures st.snap.generations == FIRST && st.ids.plan == 1 && st.commits == map[]
    ensures forall id :: id in st.plans ==> !Executable(st.plans[id].state)
  {
    hide LoadRecords, StoreValid, Recovered;
    if st != EMPTY_STATE {
      var store :| StoreValid(store) && st == Load(store);
      RecoveryIsConservative(store);
      LoadedRecords(Recovered(store.plans));
    }
  }

  lemma InitialSnapshot(st: State)
    requires Initial(st)
    ensures st.snap == EMPTY_STATE.snap.(epoch := st.snap.epoch)
  {
    hide LoadRecords, StoreValid, Recovered;
  }

  // ----- the invariants, at every moment -----

  ghost predicate Sound(st: State) { Authority(st) && UniqueEvidence(st) && PlansSound(st) }

  lemma StepKeepsSound(cfg: Config, st: State, e: Event)
    requires Sound(st) && Enabled(st, e)
    ensures Sound(Step(cfg, st, e))
  {
    hide Step, Authority, UniqueEvidence, PlansSound;
    AuthorityStep(cfg, st, e);
    UniqueStep(cfg, st, e);
    PlansSoundStep(cfg, st, e);
  }

  /** Boots, fences, endpoint stamps, unique ids, duplicate-free claims and broker capacity hold in every
      state of every run. */
  lemma {:induction false} RunsAreSound(cfg: Config, r: Run, i: nat)
    requires IsRun(cfg, r) && i < |r.states|
    ensures Sound(r.states[i])
    decreases i
  {
    hide Initial, Step, Authority, UniqueEvidence, PlansSound, Numbered;
    if i == 0 {
      InitialFacts(r.states[0]);
    } else {
      RunsAreSound(cfg, r, i - 1);
      StepKeepsSound(cfg, r.states[i - 1], r.events[i - 1]);
    }
  }

  /** Throughout every run nothing is held beyond its capacity. */
  lemma HeldStaysWithinCapacity(cfg: Config, r: Run, i: nat, resource: u64)
    requires IsRun(cfg, r) && i < |r.states|
    ensures r.states[i].broker.Held(resource) <= r.states[i].broker.Cap(resource)
  {
    hide IsRun;
    RunsAreSound(cfg, r, i);
  }

  /** Up to moment `n` the counter that numbers plans has not wrapped around. */
  ghost predicate NumbersLast(r: Run, n: nat) {
    forall k :: 0 <= k < n && k + 1 < |r.states| ==> r.states[k].ids.plan <= r.states[k + 1].ids.plan
  }

  lemma {:induction false} RunsAreNumbered(cfg: Config, r: Run, i: nat)
    requires IsRun(cfg, r) && i < |r.states| && NumbersLast(r, i)
    ensures Numbered(r.states[i]) && 1 <= r.states[i].ids.plan <= i + 1
    decreases i
  {
    hide Initial, Step, Authority, UniqueEvidence, PlansSound, Numbered;
    if i == 0 {
      InitialFacts(r.states[0]);
    } else {
      RunsAreNumbered(cfg, r, i - 1);
      var k := i - 1;
      assert r.states[k].ids.plan <= r.states[k + 1].ids.plan;
      NumberedStep(cfg, r.states[i - 1], r.events[i - 1]);
    }
  }

  /** A run has to number 2^64 - 1 plans before its counter wraps, so a shorter one never does. */
  lemma {:induction false} ShortRunsDoNotWrap(cfg: Config, r: Run, n: nat)
    requires IsRun(cfg, r) && n < |r.states| && n <= TWO64 - 2
    ensures NumbersLast(r, n) && 1 <= r.states[n].ids.plan <= n + 1
    decreases n
  {
    hide Initial, Step, Numbered, Authority, UniqueEvidence, PlansSound;
    if n == 0 {
      InitialFacts(r.states[0]);
    } else {
      ShortRunsDoNotWrap(cfg, r, n - 1);
      CounterStep(cfg, r.states[n - 1], r.events[n - 1]);
    }
  }

  // ----- fencing is for good -----

  lemma FencedStaysFenced(cfg: Config, st: State, e: Event)
    requires Enabled(st, e)
    ensures st.fenced <= Step(cfg, st, e).fenced
  {
    hide PutEndpoint, PutLink, Without, Disable, MapLinks, SubmitRequest, BeginCommit, AskBroker, EndCommit, Revalidate,
      Handoff, ExecutionResult, Cancel, Supersede;
    if PlanStep(e) { PlanStepKeepsEvidence(cfg, st, e); }
  }

  lemma {:induction false} FencesGrow(cfg: Config, r: Run, i: nat, j: nat)
    requires IsRun(cfg, r) && i <= j < |r.states|
    ensures r.states[i].fenced <= r.states[j].fenced
    decreases j
  {
    hide Initial, Step;
    if i < j {
      FencesGrow(cfg, r, i, j - 1);
      FencedStaysFenced(cfg, r.states[j - 1], r.events[j - 1]);
    }
  }

  /** Once an incarnation is fenced, no later registration or publication in its name is accepted, and
      nothing it stamped is ever fresh again. */
  lemma FencedForGood(cfg: Config, r: Run, i: nat, j: nat, worker: u64, boot: u64)
    requires IsRun(cfg, r) && i <= j < |r.states| && (worker, boot) in r.states[i].fenced
    ensures !AcceptsRegister(r.states[j], worker, boot) && !Authorized(r.states[j], worker, boot)
    ensures forall e: Endpoint :: e.worker == worker && e.workerBoot == boot && boot != 0 ==>
      !EndpointFresh(e, r.states[j].snap)
    ensures forall k :: 0 <= k < |r.states[j].snap.endpoints| ==>
      r.states[j].snap.endpoints[k].worker == worker && r.states[j].snap.endpoints[k].workerBoot == boot ==>
        !EndpointFresh(r.states[j].snap.endpoints[k], r.states[j].snap)
  {
    hide IsRun, UniqueEvidence, PlansSound;
    FencesGrow(cfg, r, i, j);
    RunsAreSound(cfg, r, j);
    var st := r.states[j];
    assert !Authorized(st, worker, boot);
    forall k | 0 <= k < |st.snap.endpoints| ensures st.snap.endpoints[k].workerBoot != 0 {
      assert Stamped(st, st.snap.endpoints[k]);
    }
  }

  // ----- why a plan's record changed -----

  ghost predicate Changes(st: State, after: State, id: u64) {
    id in after.plans && (id !in st.plans || after.plans[id] != st.plans[id])
  }

  /** The one reason there is for each new state of a plan. */
  ghost predicate Explained(st: State, e: Event, after: State, id: u64)
    requires id in after.plans
  {
    var rec := after.plans[id];
    if rec.state.PlanReady? then e.ESubmitRequest?
    else
      && id in st.plans && rec == st.plans[id].(state := rec.state)
      && match rec.state
         case AwaitingResourceCommit => e.EBeginCommit? && e.plan == id
         case Committed =>
           && e.EEndCommit? && e.sock in st.commits && st.commits[e.sock].Answered?
           && st.commits[e.sock].plan == id && st.commits[e.sock].acquired && !CommitLost(st, st.plans[id])
         case AwaitingExecution => e.ERevalidate? && e.plan == id && PlanVerdict(rec.plan, st.snap).None?
         case Active => e.EHandoff? && e.plan == id && PlanVerdict(rec.plan, st.snap).None?
         case Completed => e.EResult? && e.plan == id && e.ok && AcceptsResult(st, id, e.worker, e.boot)
         case RevalidationRequired => (e.ERevalidate? || e.EHandoff?) && e.plan == id
         case Failed => e.EEndCommit? || e.EResult?
         case Cancelled => e.EEndCommit? || e.ECancel?
         case Superseded => e.ESupersede?
         case _ => false
  }

  lemma BeginExplains(st: State, s: Socket, plan: u64, id: u64)
    requires Changes(st, BeginCommit(st, s, plan), id)
    ensures Explained(st, EBeginCommit(s, plan), BeginCommit(st, s, plan), id)
  {
    hide PlanVerdict, CommitSize;
  }

  /** The state in which `EndCommit` leaves its plan. */
  function EndedAs(st: State, c: Commit): PlanState
    requires c.Answered? && c.plan in st.plans
  {
    if CommitLost(st, st.plans[c.plan]) then Cancelled else if c.acquired then Committed else Failed
  }

  lemma EndedPlans(st: State, s: Socket)
    requires s in st.commits && st.commits[s].Answered?
    ensures var c := st.commits[s];
      EndCommit(st, s).plans ==
        if c.plan in st.plans then st.plans[c.plan := st.plans[c.plan].(state := EndedAs(st, c))] else st.plans
  {
    hide Release, CommitLost;
  }

  lemma EndExplains(st: State, s: Socket, id: u64)
    requires s in st.commits && st.commits[s].Answered? && Changes(st, EndCommit(st, s), id)
    ensures Explained(st, EEndCommit(s), EndCommit(st, s), id)
  {
    hide EndCommit, PlanVerdict;
    EndedPlans(st, s);
  }

  lemma RevalidateExplains(st: State, s: Socket, plan: u64, id: u64)
    requires Changes(st, Revalidate(st, plan), id)
    ensures Explained(st, ERevalidate(s, plan), Revalidate(st, plan), id)
  {
    hide PlanVerdict;
  }

  lemma HandoffExplains(st: State, s: Socket, plan: u64, id: u64)
    requires Changes(st, Handoff(st, plan), id)
    ensures Explained(st, EHandoff(s, plan), Handoff(st, plan), id)
  {
    hide PlanVerdict;
  }

  lemma ResultExplains(st: State, s: Socket, plan: u64, worker: u64, boot: u64, ok: bool, id: u64)
    requires Changes(st, ExecutionResult(st, plan, worker, boot, ok), id)
    ensures Explained(st, EResult(s, plan, worker, boot, ok), ExecutionResult(st, plan, worker, boot, ok), id)
  {
    hide PlanVerdict;
  }

  lemma CancelledPlans(st: State, request: u64, plan: u64)
    ensures Cancel(st, request, plan).plans ==
      if plan !in st.plans || st.plans[plan].state.Completed? || st.plans[plan].state.Cancelled? then st.plans
      else st.plans[plan := st.plans[plan].(state := Cancelled)]
  {
    hide Cancel, Freed, SameRecords;
    CancelInSteps(st, request, plan);
  }

  lemma CancelExplains(st: State, s: Socket, request: u64, plan: u64, id: u64)
    requires Changes(st, Cancel(st, request, plan), id)
    ensures Explained(st, ECancel(s, request, plan), Cancel(st, request, plan), id)
  {
    hide Cancel, PlanVerdict;
    CancelledPlans(st, request, plan);
  }

  lemma SupersededPlans(st: State, request: u64, plan: u64)
    ensures var after := Supersede(st, request, plan);
      && after.plans.Keys == st.plans.Keys
      && forall id :: id in st.plans ==>
           after.plans[id] == st.plans[id] || after.plans[id] == st.plans[id].(state := Superseded)
  {
    hide Release, SupersedeNamed;
    NamedPlans(st, plan);
  }

  lemma NamedPlans(st: State, plan: u64)
    ensures var named := SupersedeNamed(st, plan);
      && named.plans.Keys == st.plans.Keys
      && forall id :: id in st.plans ==>
           named.plans[id] == st.plans[id] || named.plans[id] == st.plans[id].(state := Superseded)
  {
    hide Release;
  }

  lemma SupersedeExplains(st: State, s: Socket, request: u64, plan: u64, id: u64)
    requires Changes(st, Supersede(st, request, plan), id)
    ensures Explained(st, ESupersede(s, request, plan), Supersede(st, request, plan), id)
  {
    hide Supersede, PlanVerdict;
    SupersededPlans(st, request, plan);
  }

  lemma SubmitExplains(cfg: Config, st: State, s: Socket, req: Request, id: u64)
    requires Changes(st, SubmitRequest(cfg, st, req), id)
    ensures Explained(st, ESubmitRequest(s, req), SubmitRequest(cfg, st, req), id)
  {
    hide PlanCommunication, OwnerOf, PlanVerdict;
  }

  lemma StepExplains(cfg: Config, st: State, e: Event, id: u64)
    requires Enabled(st, e) && Changes(st, Step(cfg, st, e), id)
    ensures Explained(st, e, Step(cfg, st, e), id)
  {
    hide Explained, SubmitRequest, BeginCommit, AskBroker, EndCommit, Revalidate, Handoff, ExecutionResult, Cancel,
      Supersede;
    if !PlanStep(e) {
      EvidenceStepKeepsPlans(cfg, st, e);
      assert false;
    }
    match e
    case ESubmitRequest(s, req) => SubmitExplains(cfg, st, s, req, id);
    case EBeginCommit(s, plan) => BeginExplains(st, s, plan, id);
    case EAskBroker(s) => AskKeepsPlans(st, s);
    case EEndCommit(s) => EndExplains(st, s, id);
    case ERevalidate(s, plan) => RevalidateExplains(st, s, plan, id);
    case EHandoff(s, plan) => HandoffExplains(st, s, plan, id);
    case EResult(s, plan, worker, boot, ok) => ResultExplains(st, s, plan, worker, boot, ok, id);
    case ECancel(s, requestId, plan) => CancelExplains(st, s, requestId, plan, id);
    case ESupersede(s, requestId, plan) => SupersedeExplains(st, s, requestId, plan, id);
  }

  lemma AskKeepsPlans(st: State, s: Socket)
    requires s in st.commits && st.commits[s].Asking?
    ensures AskBroker(st, s).plans == st.plans && AskBroker(st, s).cancelled == st.cancelled
  {
    hide Acquire, Repeat;
  }
}
