/** What must have happened before a plan is executed or completed. */
module ExecutionHistory {
  import opened Core
  import opened Model
  import opened Revalidation
  import opened Coordinator
  import opened CoordinatorInvariants
  import opened CoordinatorRuns
  import opened EvidenceSteps

  // ----- what a plan rests on when it is let through -----

  /** The endpoint is published by the live, unfenced incarnation that stamped it, and is usable. */
  ghost predicate Vouched(st: State, e: Endpoint) {
    && Authorized(st, e.worker, e.workerBoot) && (e.worker, e.workerBoot) !in st.fenced
    && e.reachable && e.ready
  }

  ghost predicate VouchedPair(st: State, eg: (u64, u64)) {
    exists e :: e in st.snap.endpoints && (e.id, e.generation) == eg && Vouched(st, e)
  }

  ghost predicate HealthyPair(st: State, lg: (u64, u64)) {
    exists l :: l in st.snap.links && (l.id, l.generation) == lg && l.healthy && !l.congestion.hardLimitExceeded
  }

  /** Every endpoint and link the plan was bound to is there, unchanged, vouched for and healthy. */
  ghost predicate Supported(st: State, plan: Plan<Double>) {
    && Revalidates(plan, st.snap)
    && (forall eg :: eg in plan.endpointGenerations ==> VouchedPair(st, eg))
    && (forall lg :: lg in plan.linkGenerations ==> HealthyPair(st, lg))
  }

  lemma FreshIsVouched(st: State, e: Endpoint)
    requires Authority(st) && e in st.snap.endpoints && Live(e, st.snap)
    ensures Vouched(st, e)
  {
    var k :| 0 <= k < |st.snap.endpoints| && st.snap.endpoints[k] == e;
    assert Stamped(st, st.snap.endpoints[k]);
  }

  lemma VerdictSupports(st: State, plan: Plan<Double>)
    requires Authority(st) && PlanVerdict(plan, st.snap).None?
    ensures Supported(st, plan)
  {
    hide EndpointMap, LinkMap, Authority, PathCurrent, ResourceOffered, PlanVerdict, Live, Vouched;
    PlanVerdictDecides(plan, st.snap);
    var emap, lmap := EndpointMap(st.snap.endpoints), LinkMap(st.snap.links);
    EndpointMapKeys(st.snap.endpoints);
    LinkMapKeys(st.snap.links);
    forall eg | eg in plan.endpointGenerations ensures VouchedPair(st, eg) {
      assert EndpointUnchanged(eg, st.snap, emap);
      FreshIsVouched(st, emap[eg.0]);
    }
    forall lg | lg in plan.linkGenerations ensures HealthyPair(st, lg) {
      assert LinkUnchanged(lg, lmap);
    }
  }

  // ----- history -----

  /** The plan's record entered this state at step `i`. */
  ghost predicate Enters(r: Run, i: nat, id: u64, s: PlanState)
    requires |r.states| == |r.events| + 1 && i < |r.events|
  {
    Changes(r.states[i], r.states[i + 1], id) && r.states[i + 1].plans[id].state == s
  }

  /** In every run a plan starts awaiting execution, or becomes active, only at a revalidation or a
      handoff of that very plan, at which everything it was bound to still stood. */
  lemma ExecutableOnlyWhenSupported(cfg: Config, r: Run, i: nat, id: u64)
    requires IsRun(cfg, r) && i < |r.events|
    requires Enters(r, i, id, AwaitingExecution) || Enters(r, i, id, Active)
    ensures (r.events[i].ERevalidate? || r.events[i].EHandoff?) && r.events[i].plan == id
    ensures Enters(r, i, id, Active) ==> r.events[i].EHandoff?
    ensures id in r.states[i].plans && r.states[i + 1].plans[id].plan == r.states[i].plans[id].plan
    ensures Supported(r.states[i], r.states[i].plans[id].plan)
  {
    hide Initial, Step, Supported, PlanVerdict, UniqueEvidence, PlansSound, Authority;
    RunsAreSound(cfg, r, i);
    StepExplains(cfg, r.states[i], r.events[i], id);
    VerdictSupports(r.states[i], r.states[i].plans[id].plan);
  }

  /** Step `j` handed the plan off with full support, and it has been active, unaltered, up to moment `i`. */
  ghost predicate ActiveSince(r: Run, j: nat, i: nat, id: u64)
    requires |r.states| == |r.events| + 1
  {
    && j < i < |r.states| && r.events[j].EHandoff? && r.events[j].plan == id && id in r.states[j].plans
    && Supported(r.states[j], r.states[j].plans[id].plan)
    && forall k :: j < k <= i ==>
         id in r.states[k].plans && r.states[k].plans[id] == r.states[j].plans[id].(state := Active)
  }

  lemma {:induction false} ActiveWasHandedOff(cfg: Config, r: Run, i: nat, id: u64) returns (j: nat)
    requires IsRun(cfg, r) && i < |r.states| && id in r.states[i].plans && r.states[i].plans[id].state.Active?
    ensures ActiveSince(r, j, i, id)
    decreases i
  {
    hide Initial, Step, Supported, Enabled;
    if i == 0 {
      InitialFacts(r.states[0]);
      assert false;
    } else if Changes(r.states[i - 1], r.states[i], id) {
      ExecutableOnlyWhenSupported(cfg, r, i - 1, id);
      StepExplains(cfg, r.states[i - 1], r.events[i - 1], id);
      j := i - 1;
    } else {
      PlansPersist(cfg, r.states[i - 1], r.events[i - 1]);
      j := ActiveWasHandedOff(cfg, r, i - 1, id);
    }
  }

  lemma PlansPersist(cfg: Config, st: State, e: Event)
    requires Enabled(st, e)
    ensures st.plans.Keys <= Step(cfg, st, e).plans.Keys
  {
    hide Step;
    if !PlanStep(e) { EvidenceStepKeepsPlans(cfg, st, e); }
    else if e.ESubmitRequest? { SubmitKeepsKeys(cfg, st, e); }
    else { PlanStepIsTame(cfg, st, e); }
  }

  lemma SubmitKeepsKeys(cfg: Config, st: State, e: Event)
    requires Enabled(st, e) && e.ESubmitRequest?
    ensures st.plans.Keys <= Step(cfg, st, e).plans.Keys
  {
    hide Planner.PlanCommunication, NewRecord;
  }

  /** A plan completed during a run was active up to then, by a handoff of that run at which everything
      it was bound to stood: so also after a recovery. */
  lemma CompletedWasHandedOff(cfg: Config, r: Run, i: nat, id: u64)
    requires IsRun(cfg, r) && i < |r.events| && Enters(r, i, id, Completed)
    ensures exists j: nat :: ActiveSince(r, j, i, id) && r.states[i + 1].plans[id].plan == r.states[j].plans[id].plan
  {
    hide Initial, Step, Supported, ActiveSince;
    StepExplains(cfg, r.states[i], r.events[i], id);
    var j := ActiveWasHandedOff(cfg, r, i, id);
    SameThroughout(r, j, i, id);
  }

  lemma SameThroughout(r: Run, j: nat, i: nat, id: u64)
    requires |r.states| == |r.events| + 1 && ActiveSince(r, j, i, id)
    ensures id in r.states[j].plans && id in r.states[i].plans
    ensures r.states[i].plans[id] == r.states[j].plans[id].(state := Active)
  {
    hide Supported;
  }

  // ----- nothing that claims is executed -----

  lemma NothingOffered(rids: seq<u64>)
    requires rids != []
    ensures exists rid :: rid in rids && !ResourceOffered([], rid)
  {
    assert rids[0] in rids && !ResourceOffered([], rids[0]);
  }

  lemma SupportedClaimsNothing(st: State, plan: Plan<Double>)
    requires Supported(st, plan) && Unattended(st.snap)
    ensures plan.requiredStagingResources == []
  {
    hide EndpointUnchanged, LinkUnchanged, PathCurrent, GenerationsCurrent, VouchedPair, HealthyPair, ResourceOffered;
    if plan.requiredStagingResources != [] { NothingOffered(plan.requiredStagingResources); }
  }

  /** Nothing ever offers a resource, so a plan that awaits execution, becomes active or completes during a
      run needs no staging resource at all. */
  lemma ExecutedNeedsNoStaging(cfg: Config, r: Run, i: nat, id: u64)
    requires IsRun(cfg, r) && i < |r.events|
    requires Enters(r, i, id, AwaitingExecution) || Enters(r, i, id, Active) || Enters(r, i, id, Completed)
    ensures r.states[i + 1].plans[id].plan.requiredStagingResources == []
  {
    hide Initial, Step, Supported, ActiveSince, Unattended;
    if Enters(r, i, id, Completed) {
      StepExplains(cfg, r.states[i], r.events[i], id);
      var j := ActiveWasHandedOff(cfg, r, i, id);
      SameThroughout(r, j, i, id);
      SinceWasSupported(r, j, i, id);
      RunsAreUnattended(cfg, r, j);
      SupportedClaimsNothing(r.states[j], r.states[j].plans[id].plan);
    } else {
      ExecutableOnlyWhenSupported(cfg, r, i, id);
      RunsAreUnattended(cfg, r, i);
      SupportedClaimsNothing(r.states[i], r.states[i].plans[id].plan);
    }
  }

  lemma SinceWasSupported(r: Run, j: nat, i: nat, id: u64)
    requires |r.states| == |r.events| + 1 && ActiveSince(r, j, i, id)
    ensures j < |r.states| && id in r.states[j].plans && Supported(r.states[j], r.states[j].plans[id].plan)
  {
    hide Supported;
  }

  /** So at no moment of a run does a plan that needs staging await execution or stand active. */
  lemma {:induction false} ExecutableNeedsNoStaging(cfg: Config, r: Run, i: nat, id: u64)
    requires IsRun(cfg, r) && i < |r.states| && id in r.states[i].plans
    requires r.states[i].plans[id].state.AwaitingExecution? || r.states[i].plans[id].state.Active?
    ensures r.states[i].plans[id].plan.requiredStagingResources == []
    decreases i
  {
    hide Initial, Step, Enabled;
    if i == 0 {
      InitialFacts(r.states[0]);
      assert false;
    } else if Changes(r.states[i - 1], r.states[i], id) {
      ExecutedNeedsNoStaging(cfg, r, i - 1, id);
    } else {
      ExecutableNeedsNoStaging(cfg, r, i - 1, id);
    }
  }
}
