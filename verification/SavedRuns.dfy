/** What a restart makes of a coordinator's own save. */
module SavedRuns {
  import opened Core
  import opened Model
  import opened Planner
  import opened PlanFacts
  import opened StoreCodec
  import opened StoreValidity
  import opened StoreFormat
  import opened StoreTheorems
  import opened PlannedStores
  import opened Coordinator
  import opened CoordinatorRuns
  import opened EvidenceSteps
  import opened ExecutionHistory
  import opened Staleness

  /** SAVE: the records, one for each plan in the order of their numbers, the supersessions and the requests. */
  ghost predicate IsSave(st: State, enc: Double -> u64, s: Store) {
    && s.supersessions == st.supersessions && s.requests == st.requests
    && (forall id :: id in st.plans ==> exists k :: 0 <= k < |s.plans| && s.plans[k].plan.id == id)
    && (forall k :: 0 <= k < |s.plans| ==> SavedFrom(st, enc, s.plans[k]))
    && (forall j, k :: 0 <= j < k < |s.plans| ==> s.plans[j].plan.id < s.plans[k].plan.id)
  }

  ghost predicate SavedFrom(st: State, enc: Double -> u64, rec: Record) {
    var id := rec.plan.id;
    id in st.plans && rec == Record(StoredPlan(st.plans[id].plan, enc), st.plans[id].state)
  }

  /** The record is one a restart takes back. */
  ghost predicate Restorable(rec: PlanRecord, enc: Double -> u64) {
    && CostValid(StoredCost(rec.plan.cost, enc)) && !rec.state.AwaitingExecution? && !rec.state.Active?
    && (rec.state.Committed? ==> rec.plan.requiredResourceClaims != [])
  }

  lemma MadePlanClaims(cfg: Config, r: Run, k: nat, plan: Plan<Double>)
    requires IsRun(cfg, r) && k < |r.events| && MadeAt(cfg, r, k, plan)
    ensures plan.requiredResourceClaims == plan.requiredStagingResources
  {
    hide Initial, Step, Succeeds, ThePlan, Unattended;
    RunsAreUnattended(cfg, r, k);
    UnattendedRevalidation(r.events[k].request, r.states[k].snap, cfg.weights, cfg.bounds, r.states[k].ids);
  }

  lemma MadeRecordIsValid(cfg: Config, r: Run, k: nat, plan: Plan<Double>, enc: Double -> u64, state: PlanState)
    requires IsRun(cfg, r) && k < |r.events| && MadeAt(cfg, r, k, plan)
    ensures RecordValid(Record(StoredPlan(plan, enc), state)) <==>
      CostValid(StoredCost(plan.cost, enc)) && (Executing(state) ==> plan.requiredResourceClaims != [])
  {
    hide Initial, Step, Succeeds, ThePlan, RecordValid, CostValid, StoredCost, StoredPlan, Retained, AllRetainable,
      Claims, ClaimedRelays, PathsOf, BoundEndpoints, BoundLinks, AllHops, Linked, EndpointMap, LinkMap;
    var req, snap, ids := r.events[k].request, r.states[k].snap, r.states[k].ids;
    PlannedRecordIsValid(req, snap, cfg.weights, cfg.bounds, ids, enc, state);
    SuccessIsBuilt(req, snap, cfg.weights, cfg.bounds, ids);
    ClaimsEmptyIff(ClaimedRelays(plan.shape, Retained(req, snap, cfg.weights, cfg.bounds)));
  }

  /** The record of a plan made in the run is valid, at any later moment, exactly when it is restorable. */
  lemma SavedRecordIsValidIff(cfg: Config, r: Run, k: nat, i: nat, id: u64, enc: Double -> u64)
    requires IsRun(cfg, r) && k < i < |r.states| && NumbersLast(r, i) && Enters(r, k, id, PlanReady)
    ensures id in r.states[i].plans
    ensures var rec := r.states[i].plans[id];
      RecordValid(Record(StoredPlan(rec.plan, enc), rec.state)) <==> Restorable(rec, enc)
  {
    hide Initial, Step, MadeAt, RecordValid, CostValid, StoredCost, StoredPlan;
    NewPlanIsMade(cfg, r, k, id);
    PlanKept(cfg, r, k + 1, i, id);
    var rec := r.states[i].plans[id];
    MadeRecordIsValid(cfg, r, k, rec.plan, enc, rec.state);
    MadePlanClaims(cfg, r, k, rec.plan);
    if rec.state.AwaitingExecution? || rec.state.Active? { ExecutableNeedsNoStaging(cfg, r, i, id); }
  }

  /** A run that starts empty has made every plan it holds. */
  lemma {:induction false} PlansAreMade(cfg: Config, r: Run, i: nat, id: u64) returns (k: nat)
    requires IsRun(cfg, r) && r.states[0] == EMPTY_STATE && i < |r.states| && id in r.states[i].plans
    ensures k < i && Enters(r, k, id, PlanReady)
    decreases i
  {
    hide Step, Enabled, Initial;
    if id in r.states[i - 1].plans {
      k := PlansAreMade(cfg, r, i - 1, id);
    } else {
      StepExplains(cfg, r.states[i - 1], r.events[i - 1], id);
      k := i - 1;
    }
  }

  lemma SaveIsValidIff(cfg: Config, r: Run, i: nat, enc: Double -> u64, s: Store)
    requires IsRun(cfg, r) && r.states[0] == EMPTY_STATE && i < |r.states| && NumbersLast(r, i)
    requires IsSave(r.states[i], enc, s)
    ensures StoreValid(s) <==>
      && (forall id :: id in r.states[i].plans ==> Restorable(r.states[i].plans[id], enc))
      && DistinctRequests(r.states[i].requests)
  {
    hide IsRun, Step, RecordValid, Restorable, StoredPlan, DistinctRequests;
    var st := r.states[i];
    forall id | id in st.plans
      ensures RecordValid(Record(StoredPlan(st.plans[id].plan, enc), st.plans[id].state)) <==>
        Restorable(st.plans[id], enc)
    {
      var k := PlansAreMade(cfg, r, i, id);
      SavedRecordIsValidIff(cfg, r, k, i, id, enc);
    }
    if StoreValid(s) {
      forall id | id in st.plans ensures Restorable(st.plans[id], enc) {
        var k :| 0 <= k < |s.plans| && s.plans[k].plan.id == id;
        assert SavedFrom(st, enc, s.plans[k]) && RecordValid(s.plans[k]);
      }
    }
  }

  /** A save of a run that started empty, within the size limits, is taken back by a restart exactly when
      every record is restorable and no request was recorded twice. */
  lemma SaveIsTakenBackIff(cfg: Config, r: Run, i: nat, enc: Double -> u64, s: Store)
    requires IsRun(cfg, r) && r.states[0] == EMPTY_STATE && i < |r.states| && NumbersLast(r, i)
    requires IsSave(r.states[i], enc, s) && StoreFits(s) && |PutBody(s)| < TWO64
    ensures Parse(Serialize(s)).Parsed? <==>
      && (forall id :: id in r.states[i].plans ==> Restorable(r.states[i].plans[id], enc))
      && DistinctRequests(r.states[i].requests)
  {
    hide IsRun, IsSave, StoreFits, Parse, Serialize, StoreValid, Restorable, NumbersLast, PutBody, DistinctRequests;
    SaveIsValidIff(cfg, r, i, enc, s);
    StoreRoundTrip(s);
  }

  /** A save taken while any plan made in the run awaits execution or is active is refused as a whole, whatever
      the run started from: the restart finds nothing. */
  lemma LiveSaveIsLost(cfg: Config, r: Run, k: nat, i: nat, id: u64, enc: Double -> u64, s: Store)
    requires IsRun(cfg, r) && k < i < |r.states| && NumbersLast(r, i) && Enters(r, k, id, PlanReady)
    requires id in r.states[i].plans
    requires r.states[i].plans[id].state.AwaitingExecution? || r.states[i].plans[id].state.Active?
    requires IsSave(r.states[i], enc, s) && StoreFits(s) && |PutBody(s)| < TWO64
    ensures Parse(Serialize(s)).Refused?
  {
    hide IsRun, StoreFits, Parse, Serialize, RecordValid, NumbersLast, PutBody, Step, StoredPlan, Enters;
    SavedRecordIsValidIff(cfg, r, k, i, id, enc);
    var n :| 0 <= n < |s.plans| && s.plans[n].plan.id == id;
    assert SavedFrom(r.states[i], enc, s.plans[n]) && !RecordValid(s.plans[n]);
    StoreRoundTrip(s);
  }
}
