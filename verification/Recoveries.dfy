/** What a coordinator that starts from a store knows: every stored plan, unaltered but for its state. */
module Recoveries {
  import opened Core
  import opened Model
  import opened Ieee
  import opened StoreCodec
  import opened StoreValidity
  import opened Coordinator
  import opened CoordinatorRuns

  /** The figures are the numbers the patterns denote. */
  ghost predicate SameFigures(c: CostSummary<u64>, d: CostSummary<Double>) {
    && d.total == DoubleOf(c.total) && |d.components| == |c.components|
    && forall i :: 0 <= i < |c.components| ==>
         && d.components[i].factor == c.components[i].factor && d.components[i].provenance == c.components[i].provenance
         && d.components[i].weight == DoubleOf(c.components[i].weight)
         && d.components[i].value == DoubleOf(c.components[i].value)
  }

  ghost predicate SamePath(p: Path<u64>, q: Path<Double>) {
    && q.id == p.id && q.generation == p.generation && q.source == p.source && q.destination == p.destination
    && q.stages == p.stages && q.totalPayload == p.totalPayload && q.provenance == p.provenance
    && q.failureDomain == p.failureDomain && q.reason == p.reason && SameFigures(p.cost, q.cost)
  }

  /** What the plan is bound to, claims and executes. */
  ghost predicate SameBinding(p: Plan<u64>, q: Plan<Double>) {
    && q.bound == p.bound && q.endpointGenerations == p.endpointGenerations && q.linkGenerations == p.linkGenerations
    && q.requiredStagingResources == p.requiredStagingResources && q.requiredResourceClaims == p.requiredResourceClaims
    && q.primaryPath == p.primaryPath && q.fallbackPaths == p.fallbackPaths && q.orderedStages == p.orderedStages
    && |q.candidatePaths| == |p.candidatePaths|
    && forall i :: 0 <= i < |p.candidatePaths| ==> SamePath(p.candidatePaths[i], q.candidatePaths[i])
  }

  ghost predicate SamePlan(p: Plan<u64>, q: Plan<Double>) {
    && q.id == p.id && q.generation == p.generation
    && q.requestId == p.requestId && q.requestGeneration == p.requestGeneration
    && q.shape == p.shape && q.feasibility == p.feasibility && SameBinding(p, q) && SameFigures(p.cost, q.cost)
    && q.explanations == p.explanations && q.provenance == p.provenance && q.description == p.description
    && q.revalidationGeneration == p.revalidationGeneration && q.revalidateBeforeExecute == p.revalidateBeforeExecute
    && q.handoffRequirement == p.handoffRequirement && q.createdProvenance == p.createdProvenance
    && q.multicastDestinations == p.multicastDestinations && q.collectiveShape == p.collectiveShape
    && q.collectiveParticipants == p.collectiveParticipants
  }

  lemma LoadedIsSame(p: Plan<u64>)
    ensures SamePlan(p, LoadedPlan(p))
  {
  }

  /** A state that could be committed or executed becomes REVALIDATION_REQUIRED; every other one stays. */
  lemma RecoveredState(s: PlanState)
    ensures Recover(s) ==
      if s in [PlanReady, AwaitingResourceCommit, Committed, AwaitingExecution, Active] then RevalidationRequired else s
  {
  }

  ghost predicate Files(st: State, rec: Record) {
    && rec.plan.id in st.plans && SamePlan(rec.plan, st.plans[rec.plan.id].plan)
    && st.plans[rec.plan.id].state == rec.state
    && st.plans[rec.plan.id].worker == 0 && st.plans[rec.plan.id].boot == 0
  }

  lemma FilesLast(before: State, rec: Record)
    ensures Files(before.(plans := before.plans[rec.plan.id := PlanRecord(LoadedPlan(rec.plan), rec.state, 0, 0)],
                          currentByRequest := before.currentByRequest[rec.plan.requestId := rec.plan.id]), rec)
  {
    hide SamePlan, LoadedPlan;
    LoadedIsSame(rec.plan);
  }

  lemma FilesEarlier(before: State, rec: Record, earlier: Record)
    requires Files(before, earlier) && earlier.plan.id != rec.plan.id
    ensures Files(before.(plans := before.plans[rec.plan.id := PlanRecord(LoadedPlan(rec.plan), rec.state, 0, 0)],
                          currentByRequest := before.currentByRequest[rec.plan.requestId := rec.plan.id]), earlier)
  {
    hide SamePlan, LoadedPlan;
  }

  ghost predicate HasPlan(recs: seq<Record>, id: u64) { exists k :: 0 <= k < |recs| && recs[k].plan.id == id }

  lemma {:induction false} LoadedFiles(recs: seq<Record>)
    requires DistinctPlans(recs)
    ensures var st := LoadRecords(EMPTY_STATE, recs);
      && (forall k :: 0 <= k < |recs| ==> Files(st, recs[k]))
      && (forall id :: id in st.plans ==> HasPlan(recs, id))
  {
    hide LoadedPlan, Files;
    if recs != [] {
      var front, last := recs[..|recs| - 1], recs[|recs| - 1];
      LoadedFiles(front);
      var before, st := LoadRecords(EMPTY_STATE, front), LoadRecords(EMPTY_STATE, recs);
      FilesLast(before, last);
      forall k | 0 <= k < |front| ensures Files(st, recs[k]) {
        assert front[k] == recs[k];
        FilesEarlier(before, last, front[k]);
      }
      forall id | id in st.plans ensures HasPlan(recs, id) {
        if id in before.plans {
          var k :| 0 <= k < |front| && front[k].plan.id == id;
          assert recs[k].plan.id == id;
        } else {
          assert recs[|front|].plan.id == id;
        }
      }
    }
  }

  /** The record is the last one of its request. */
  ghost predicate LastOf(recs: seq<Record>, k: nat) {
    k < |recs| && forall j :: k < j < |recs| ==> recs[j].plan.requestId != recs[k].plan.requestId
  }

  lemma {:induction false} LoadedCurrent(recs: seq<Record>, k: nat)
    requires LastOf(recs, k)
    ensures var st := LoadRecords(EMPTY_STATE, recs);
      && recs[k].plan.requestId in st.currentByRequest
      && st.currentByRequest[recs[k].plan.requestId] == recs[k].plan.id
  {
    hide LoadedPlan;
    if k < |recs| - 1 {
      var front := recs[..|recs| - 1];
      assert front[k] == recs[k];
      LoadedCurrent(front, k);
    }
  }

  /** Starting from a valid store, every stored plan is there under its id, with everything it was bound to, and in
      the state recovery leaves it in; no other plan is; the last plan of a request is its current one; and there is
      no evidence, nothing held, nothing cancelled, and a new epoch. */
  lemma RecoveryKeepsPlans(store: Store)
    requires StoreValid(store)
    ensures var st := Load(store);
      && (forall k :: 0 <= k < |store.plans| ==>
            Files(st, store.plans[k].(state := Recover(store.plans[k].state))))
      && (forall id :: id in st.plans ==> HasPlan(store.plans, id))
      && (forall k: nat :: LastOf(store.plans, k) ==>
            && store.plans[k].plan.requestId in st.currentByRequest
            && st.currentByRequest[store.plans[k].plan.requestId] == store.plans[k].plan.id)
      && st.supersessions == store.supersessions && st.requests == store.requests
      && st.snap.endpoints == [] && st.snap.links == [] && st.snap.workerBoots == map[]
      && st.snap.epoch == (store.epoch + 1) % TWO64
      && st.broker.held == map[] && st.cancelled == {} && st.fenced == {} && st.workers == map[] && st.commits == map[]
  {
    hide LoadRecords, Files, RecordValid, Recover;
    var recs, st := Recovered(store.plans), Load(store);
    var loaded := LoadRecords(EMPTY_STATE, recs);
    RecoveryIsConservative(store);
    LoadedRecords(recs);
    LoadedFiles(recs);
    forall k | 0 <= k < |store.plans| ensures Files(st, store.plans[k].(state := Recover(store.plans[k].state))) {
      assert recs[k] == store.plans[k].(state := Recover(store.plans[k].state));
      SameFiles(loaded, st, recs[k]);
    }
    forall id | id in st.plans ensures HasPlan(store.plans, id) {
      var k :| 0 <= k < |recs| && recs[k].plan.id == id;
      assert store.plans[k].plan.id == id;
    }
    forall k: nat | LastOf(store.plans, k)
      ensures store.plans[k].plan.requestId in st.currentByRequest
      ensures st.currentByRequest[store.plans[k].plan.requestId] == store.plans[k].plan.id
    {
      assert forall j :: 0 <= j < |recs| ==> recs[j].plan == store.plans[j].plan;
      assert LastOf(recs, k);
      LoadedCurrent(recs, k);
    }
  }

  lemma SameFiles(a: State, b: State, rec: Record)
    requires Files(a, rec) && b.plans == a.plans
    ensures Files(b, rec)
  {
    hide SamePlan;
  }
}
