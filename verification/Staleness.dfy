/** Generations only move forward, so a plan overtaken by an evidence publication is stale for good. */
module Staleness {
  import opened Core
  import opened Model
  import opened FeasibilityFilter
  import opened Cost
  import opened Planner
  import opened PlanFacts
  import opened Revalidation
  import opened RevalidationTheorems
  import opened Coordinator
  import opened CoordinatorInvariants
  import opened CoordinatorRuns
  import opened EvidenceSteps
  import opened ExecutionHistory
  import opened Cancellation

  ghost predicate NoneBehind(a: Generations, b: Generations) {
    && a.topology <= b.topology && a.capacity <= b.capacity && a.congestion <= b.congestion
    && b == a.(topology := b.topology, capacity := b.capacity, congestion := b.congestion)
  }

  ghost predicate AllStarted(g: Generations) { 1 <= g.topology && 1 <= g.capacity && 1 <= g.congestion }

  /** The step is an evidence publication the coordinator takes in. */
  ghost predicate Publishes(st: State, e: Event) { MovesCapacity(st, e) || MovesCongestion(st, e) }

  /** The step moves a generation that has no successor. */
  ghost predicate Wraps(st: State, e: Event) {
    || (MovesTopology(st, e) && st.snap.generations.topology == TWO64 - 1)
    || (MovesCapacity(st, e) && st.snap.generations.capacity == TWO64 - 1)
    || (MovesCongestion(st, e) && st.snap.generations.congestion == TWO64 - 1)
  }

  /** A step leaves no generation behind exactly when it does not wrap one around. */
  lemma GenerationsStep(cfg: Config, st: State, e: Event)
    requires Enabled(st, e)
    ensures NoneBehind(st.snap.generations, Step(cfg, st, e).snap.generations) <==> !Wraps(st, e)
    ensures !Wraps(st, e) && MovesCapacity(st, e) ==>
      Step(cfg, st, e).snap.generations.capacity == st.snap.generations.capacity + 1
    ensures !Wraps(st, e) && MovesCongestion(st, e) ==>
      Step(cfg, st, e).snap.generations.congestion == st.snap.generations.congestion + 1
  {
    hide Step, MovesTopology, MovesCapacity, MovesCongestion;
    StepEvolves(cfg, st, e);
  }

  /** No step before moment `n` wraps a generation around. */
  ghost predicate GenerationsLast(r: Run, n: nat) {
    forall k :: 0 <= k < n && k < |r.events| && k < |r.states| ==> !Wraps(r.states[k], r.events[k])
  }

  /** Step `k` leaves no generation behind. */
  ghost predicate KeepsUp(r: Run, k: nat)
    requires k + 1 < |r.states|
  {
    NoneBehind(r.states[k].snap.generations, r.states[k + 1].snap.generations)
  }

  /** Topology, capacity and congestion never decrease, and no other generation moves, from one moment of a
      run to the next, exactly as long as no step wraps one around. */
  lemma GenerationsNeverDecreaseIff(cfg: Config, r: Run, n: nat)
    requires IsRun(cfg, r) && n <= |r.events|
    ensures (forall k: nat :: k < n ==> KeepsUp(r, k)) <==> GenerationsLast(r, n)
  {
    hide Initial, Step, NoneBehind, Wraps;
    forall k: nat | k < n ensures KeepsUp(r, k) <==> !Wraps(r.states[k], r.events[k]) {
      GenerationsStep(cfg, r.states[k], r.events[k]);
    }
    if forall k: nat :: k < n ==> KeepsUp(r, k) {
      forall k | 0 <= k < n ensures !Wraps(r.states[k], r.events[k]) {
        assert KeepsUp(r, k);
      }
    }
  }

  /** So from any moment to any later one. */
  lemma {:induction false} GenerationsNeverDecrease(cfg: Config, r: Run, i: nat, j: nat)
    requires IsRun(cfg, r) && i <= j < |r.states| && GenerationsLast(r, j)
    ensures AllStarted(r.states[j].snap.generations)
    ensures NoneBehind(r.states[i].snap.generations, r.states[j].snap.generations)
    decreases j
  {
    hide Initial, Step, Wraps;
    if j == 0 {
      InitialFacts(r.states[0]);
    } else {
      var k := j - 1;
      GenerationsNeverDecrease(cfg, r, if i < j then i else k, k);
      GenerationsStep(cfg, r.states[k], r.events[k]);
      assert !Wraps(r.states[k], r.events[k]);
    }
  }

  /** A new plan is what planning the submitted request on the snapshot of that moment yields. */
  ghost predicate MadeAt(cfg: Config, r: Run, i: nat, plan: Plan<Double>)
    requires i < |r.events| && i < |r.states|
  {
    && r.events[i].ESubmitRequest?
    && Succeeds(r.events[i].request, r.states[i].snap, cfg.weights, cfg.bounds, r.states[i].ids)
    && plan == ThePlan(r.events[i].request, r.states[i].snap, cfg.weights, cfg.bounds, r.states[i].ids)
  }

  lemma NewPlanIsMade(cfg: Config, r: Run, i: nat, id: u64)
    requires IsRun(cfg, r) && i < |r.events| && NumbersLast(r, i + 1) && Enters(r, i, id, PlanReady)
    ensures MadeAt(cfg, r, i, r.states[i + 1].plans[id].plan) && id < r.states[i + 1].ids.plan
    ensures r.states[i + 1].plans[id].plan.bound == r.states[i].snap.generations
  {
    hide Initial, SubmitRequest, Succeeds, ThePlan;
    var st, e := r.states[i], r.events[i];
    RunsAreNumbered(cfg, r, i);
    StepExplains(cfg, st, e, id);
    assert r.states[i + 1] == SubmitRequest(cfg, st, e.request);
    if AddsPlan(cfg, st, e.request) {
      SubmittedPlan(cfg, st, e.request);
    } else {
      FailureAddsNothing(cfg, st, e.request);
      assert false;
    }
  }

  lemma {:induction false} PlanKept(cfg: Config, r: Run, i: nat, j: nat, id: u64)
    requires IsRun(cfg, r) && i <= j < |r.states| && NumbersLast(r, j)
    requires id in r.states[i].plans && id < r.states[i].ids.plan
    ensures id in r.states[j].plans && r.states[j].plans[id].plan == r.states[i].plans[id].plan
      && id < r.states[j].ids.plan
    decreases j
  {
    hide Initial, Step;
    if i < j {
      PlanKept(cfg, r, i, j - 1, id);
      PlanStays(cfg, r.states[j - 1], r.events[j - 1], id);
      RunsAreNumbered(cfg, r, j - 1);
      NumberedStep(cfg, r.states[j - 1], r.events[j - 1]);
    }
  }

  /** Once capacity or congestion evidence has been taken in, no plan made earlier in the run revalidates,
      is let through to execution or is handed off, ever again. */
  lemma PermanentlyStale(cfg: Config, r: Run, i: nat, j: nat, k: nat, id: u64)
    requires IsRun(cfg, r) && i < j < k < |r.states| && NumbersLast(r, k) && GenerationsLast(r, k)
    requires Enters(r, i, id, PlanReady) && Publishes(r.states[j], r.events[j])
    ensures id in r.states[k].plans && !Revalidates(r.states[k].plans[id].plan, r.states[k].snap)
    ensures k < |r.events| ==> !Enters(r, k, id, AwaitingExecution) && !Enters(r, k, id, Active)
    ensures k < |r.events| && (r.events[k].ERevalidate? || r.events[k].EHandoff?) && r.events[k].plan == id ==>
      id in r.states[k + 1].plans && r.states[k + 1].plans[id].state == RevalidationRequired
  {
    hide Initial, Step, PlanVerdict, EndpointUnchanged, LinkUnchanged, PathCurrent, ResourceOffered, EndpointMap,
      LinkMap, Numbered, Revalidate, Handoff, Supported, MadeAt, Wraps;
    NewPlanIsMade(cfg, r, i, id);
    PlanKept(cfg, r, i + 1, k, id);
    GenerationsNeverDecrease(cfg, r, i, j);
    GenerationsNeverDecrease(cfg, r, 0, i);
    GenerationsStep(cfg, r.states[j], r.events[j]);
    GenerationsNeverDecrease(cfg, r, j + 1, k);
    var plan := r.states[k].plans[id].plan;
    assert !GenerationsCurrent(plan.bound, r.states[k].snap.generations);
    PlanVerdictDecides(plan, r.states[k].snap);
    if k < |r.events| {
      if Enters(r, k, id, AwaitingExecution) || Enters(r, k, id, Active) {
        StepExplains(cfg, r.states[k], r.events[k], id);
        assert false;
      }
      RejectedIsMarked(cfg, r.states[k], r.events[k], id);
    }
  }

  lemma RejectedIsMarked(cfg: Config, st: State, e: Event, id: u64)
    requires Enabled(st, e) && id in st.plans && PlanVerdict(st.plans[id].plan, st.snap).Some?
    ensures (e.ERevalidate? || e.EHandoff?) && e.plan == id ==>
      id in Step(cfg, st, e).plans && Step(cfg, st, e).plans[id].state == RevalidationRequired
  {
    hide PlanVerdict;
  }

  // ----- what a run's own plans come to -----

  lemma UnattendedRevalidation(req: Request, snap: Snapshot, w: Weights, b: Bounds, ids: Ids)
    requires Succeeds(req, snap, w, b, ids) && Unattended(snap)
    ensures var plan := ThePlan(req, snap, w, b, ids);
      && plan.requiredResourceClaims == plan.requiredStagingResources
      && (Revalidates(plan, snap) <==> plan.requiredResourceClaims == [])
  {
    hide Succeeds, ThePlan, Retained, Stands, Revalidates, AllRetainable, PathsOf, BoundEndpoints, BoundLinks, Claims,
      Linked, EndpointMap, LinkMap, ClaimedRelays;
    SuccessIsBuilt(req, snap, w, b, ids);
    var plan := ThePlan(req, snap, w, b, ids);
    FreshPlanStands(plan, req, snap, w, b, Retained(req, snap, w, b), ids.stage);
    RevalidatesInTwo(plan, snap);
    if plan.requiredResourceClaims != [] {
      assert plan.requiredStagingResources[0] in plan.requiredStagingResources;
    }
  }

  /** A plan made in a run revalidates at once exactly when it claims nothing; one that claims anything is
      never let through to execution, handed off or completed. */
  lemma ClaimingPlansNeverRun(cfg: Config, r: Run, i: nat, j: nat, id: u64)
    requires IsRun(cfg, r) && i < j < |r.states| && NumbersLast(r, j) && Enters(r, i, id, PlanReady)
    ensures var plan := r.states[i + 1].plans[id].plan;
      && (Revalidates(plan, r.states[i + 1].snap) <==> plan.requiredResourceClaims == [])
      && (plan.requiredResourceClaims != [] && j < |r.events| ==>
            !Enters(r, j, id, AwaitingExecution) && !Enters(r, j, id, Active) && !Enters(r, j, id, Completed))
  {
    hide Initial, Step, Revalidates, Unattended, Succeeds, ThePlan;
    NewPlanIsMade(cfg, r, i, id);
    RunsAreUnattended(cfg, r, i);
    UnattendedRevalidation(r.events[i].request, r.states[i].snap, cfg.weights, cfg.bounds, r.states[i].ids);
    PlanStepKeepsEvidence(cfg, r.states[i], r.events[i]);
    PlanKept(cfg, r, i + 1, j, id);
    if j < |r.events|
       && (Enters(r, j, id, AwaitingExecution) || Enters(r, j, id, Active) || Enters(r, j, id, Completed)) {
      PlanStays(cfg, r.states[j], r.events[j], id);
      ExecutedNeedsNoStaging(cfg, r, j, id);
    }
  }

  /** A plan made at step `i` and let through or handed off at step `j` is, at `j`, still feasible on every
      path it retained, as long as endpoints and links of equal id and generation agree on their static
      fields: in a run nothing is ever reserved and the policy never moves. */
  lemma HandedOffIsStillFeasible(cfg: Config, r: Run, i: nat, j: nat, id: u64, k: nat)
    requires IsRun(cfg, r) && i < j < |r.events| && NumbersLast(r, j) && Enters(r, i, id, PlanReady)
    requires Enters(r, j, id, AwaitingExecution) || Enters(r, j, id, Active)
    requires StaticsAgree(r.states[i].snap, r.states[j].snap)
    ensures r.events[i].ESubmitRequest?
    ensures var req, snap := r.events[i].request, r.states[i].snap;
      k < |Retained(req, snap, cfg.weights, cfg.bounds)| ==>
      Verdict(req, r.states[j].snap, Retained(req, snap, cfg.weights, cfg.bounds)[k].path, cfg.bounds).Feasible?
  {
    hide Initial, Step, Revalidates, Succeeds, ThePlan, Retained, StaticsAgree, Verdict, VouchedPair, HealthyPair;
    NewPlanIsMade(cfg, r, i, id);
    PlanKept(cfg, r, i + 1, j, id);
    ExecutableOnlyWhenSupported(cfg, r, j, id);
    RunsAreUnattended(cfg, r, i);
    RunsAreUnattended(cfg, r, j);
    var req, snap := r.events[i].request, r.states[i].snap;
    if k < |Retained(req, snap, cfg.weights, cfg.bounds)| {
      RevalidationRefinesFeasibility(req, snap, r.states[j].snap, cfg.weights, cfg.bounds, r.states[i].ids, k);
    }
  }
}
