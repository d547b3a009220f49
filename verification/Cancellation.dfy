/** Cancelling a request against the two-phase commit of its plans, in every interleaving. */
module Cancellation {
  import opened Core
  import opened Broker
  import opened Revalidation
  import opened Coordinator
  import opened CoordinatorInvariants
  import opened CoordinatorRuns
  import opened ExecutionHistory

  // ----- cancellations are for good -----

  lemma CancelledStays(cfg: Config, st: State, e: Event)
    requires Enabled(st, e)
    ensures st.cancelled <= Step(cfg, st, e).cancelled
  {
    hide SubmitRequest, AskBroker, EndCommit, Cancel, Supersede, PlanVerdict, SetState, ExecutionResult, Revalidate,
      Handoff;
    if !PlanStep(e) {
      EvidenceStepKeepsPlans(cfg, st, e);
    } else {
      match e
      case ESubmitRequest(_, req) => SubmitTouchesOnlyPlans(cfg, st, req);
      case EAskBroker(s) => AskKeepsPlans(st, s);
      case EEndCommit(s) => EndKeepsCancelled(st, s);
      case ECancel(_, request, plan) => CancelKeepsCommits(st, request, plan);
      case ESupersede(_, request, plan) => CancelKeepsCommits(st, request, plan);
      case ERevalidate(_, plan) => RevalidationIsTame(st, plan);
      case EHandoff(_, plan) => RevalidationIsTame(st, plan);
      case EResult(_, plan, worker, boot, ok) => ResultKeepsLedger(st, plan, worker, boot, ok);
      case EBeginCommit(s, plan) => BeginKeepsCancelled(st, s, plan);
    }
  }

  lemma BeginKeepsCancelled(st: State, s: Socket, plan: u64)
    ensures BeginCommit(st, s, plan).cancelled == st.cancelled
  {
  }

  lemma EndKeepsCancelled(st: State, s: Socket)
    requires s in st.commits && st.commits[s].Answered?
    ensures EndCommit(st, s).cancelled == st.cancelled
  {
    hide Release;
  }

  lemma {:induction false} CancellationsGrow(cfg: Config, r: Run, i: nat, j: nat)
    requires IsRun(cfg, r) && i <= j < |r.states|
    ensures r.states[i].cancelled <= r.states[j].cancelled
    decreases j
  {
    hide Initial, Step;
    if i < j {
      CancellationsGrow(cfg, r, i, j - 1);
      CancelledStays(cfg, r.states[j - 1], r.events[j - 1]);
    }
  }

  /** Once a request is cancelled, no later step commits a plan of it. */
  lemma NoCommitAfterCancel(cfg: Config, r: Run, i: nat, j: nat, id: u64)
    requires IsRun(cfg, r) && i <= j < |r.events| && Enters(r, j, id, Committed)
    ensures r.states[j + 1].plans[id].plan.requestId !in r.states[i].cancelled
  {
    hide Initial, Step;
    CancellationsGrow(cfg, r, i, j);
    StepExplains(cfg, r.states[j], r.events[j], id);
  }

  /** So a plan found committed after its request was cancelled was committed before, and has not been
      touched since. */
  lemma {:induction false} CommittedBeforeCancelled(cfg: Config, r: Run, i: nat, j: nat, id: u64)
    requires IsRun(cfg, r) && i <= j < |r.states| && id in r.states[j].plans && r.states[j].plans[id].state.Committed?
    requires r.states[j].plans[id].plan.requestId in r.states[i].cancelled
    ensures forall k :: i <= k <= j ==> id in r.states[k].plans && r.states[k].plans[id] == r.states[j].plans[id]
    decreases j
  {
    hide Initial, Step;
    if i < j {
      if Changes(r.states[j - 1], r.states[j], id) {
        NoCommitAfterCancel(cfg, r, i, j - 1, id);
        assert false;
      }
      PlansPersist(cfg, r.states[j - 1], r.events[j - 1]);
      CommittedBeforeCancelled(cfg, r, i, j - 1, id);
    }
  }

  // ----- a commit that was in flight -----

  /** Until its second phase runs, a commit in flight stays with its plan and its claims. */
  lemma CommitStays(cfg: Config, st: State, e: Event, s: Socket)
    requires Enabled(st, e) && s in st.commits && e != EEndCommit(s)
    ensures var after := Step(cfg, st, e);
      s in after.commits && after.commits[s].plan == st.commits[s].plan
        && after.commits[s].claims == st.commits[s].claims
  {
    hide SubmitRequest, AskBroker, EndCommit, Cancel, Supersede, Revalidate, Handoff, ExecutionResult, BeginCommit;
    if !PlanStep(e) {
      EvidenceStepKeepsPlans(cfg, st, e);
    } else {
      match e
      case ESubmitRequest(_, req) => SubmitTouchesOnlyPlans(cfg, st, req);
      case EBeginCommit(s', plan) => CommitsWhileCommitting(st, s', plan, s);
      case EAskBroker(s') => AskKeepsOtherCommits(st, s', s);
      case EEndCommit(s') => EndCommitIsTame(st, s');
      case ERevalidate(_, plan) => RevalidationIsTame(st, plan);
      case EHandoff(_, plan) => RevalidationIsTame(st, plan);
      case EResult(_, plan, worker, boot, ok) => ResultKeepsLedger(st, plan, worker, boot, ok);
      case ECancel(_, request, plan) => CancelKeepsCommits(st, request, plan);
      case ESupersede(_, request, plan) => CancelKeepsCommits(st, request, plan);
    }
  }

  lemma CommitsWhileCommitting(st: State, s': Socket, plan: u64, s: Socket)
    requires s in st.commits && s' != s
    ensures s in BeginCommit(st, s', plan).commits && BeginCommit(st, s', plan).commits[s] == st.commits[s]
  {
  }

  lemma AskKeepsOtherCommits(st: State, s': Socket, s: Socket)
    requires s' in st.commits && st.commits[s'].Asking? && s in st.commits
    ensures s in AskBroker(st, s').commits && AskBroker(st, s').commits[s].plan == st.commits[s].plan
    ensures AskBroker(st, s').commits[s].claims == st.commits[s].claims
  {
    hide Acquire, Repeat;
  }

  /** A numbered plan keeps its contents: only its state can change. */
  lemma PlanStays(cfg: Config, st: State, e: Event, id: u64)
    requires Enabled(st, e) && id in st.plans && id < st.ids.plan
    ensures var after := Step(cfg, st, e); id in after.plans && after.plans[id].plan == st.plans[id].plan
  {
    hide Step;
    if !PlanStep(e) { EvidenceStepKeepsPlans(cfg, st, e); }
    else if e.ESubmitRequest? { SubmitKeepsPlan(cfg, st, e, id); }
    else { PlanStepIsTame(cfg, st, e); }
  }

  lemma SubmitKeepsPlan(cfg: Config, st: State, e: Event, id: u64)
    requires Enabled(st, e) && e.ESubmitRequest? && id in st.plans && id < st.ids.plan
    ensures id in Step(cfg, st, e).plans && Step(cfg, st, e).plans[id].plan == st.plans[id].plan
  {
    hide SubmitRequest, AddsPlan;
    if AddsPlan(cfg, st, e.request) {
      SubmittedPlan(cfg, st, e.request);
    } else {
      FailureAddsNothing(cfg, st, e.request);
    }
  }

  /** The commit in flight on `s` at moment `i` is still the one in flight at moment `j`, for the same plan. */
  lemma {:induction false} StillInFlight(cfg: Config, r: Run, i: nat, j: nat, s: Socket)
    requires IsRun(cfg, r) && i <= j < |r.states| && NumbersLast(r, j) && s in r.states[i].commits
    requires forall k :: i <= k < j ==> r.events[k] != EEndCommit(s)
    ensures Numbered(r.states[i]) && Numbered(r.states[j])
    ensures s in r.states[j].commits
    ensures var c, d := r.states[i].commits[s], r.states[j].commits[s];
      && d.plan == c.plan && d.claims == c.claims && c.plan in r.states[i].plans && d.plan in r.states[j].plans
      && r.states[j].plans[c.plan].plan == r.states[i].plans[c.plan].plan
      && c.claims == r.states[i].plans[c.plan].plan.requiredResourceClaims
    decreases j
  {
    hide Initial, Step;
    RunsAreNumbered(cfg, r, i);
    assert InFlight(r.states[i], r.states[i].commits[s]);
    if i < j {
      StillInFlight(cfg, r, i, j - 1, s);
      RunsAreNumbered(cfg, r, j);
      assert InFlight(r.states[j - 1], r.states[j - 1].commits[s]);
      CommitStays(cfg, r.states[j - 1], r.events[j - 1], s);
      PlanStays(cfg, r.states[j - 1], r.events[j - 1], r.states[i].commits[s].plan);
    }
  }

  lemma EndedLedger(st: State, s: Socket)
    requires s in st.commits && st.commits[s].Answered? && st.commits[s].plan in st.plans
    requires CommitLost(st, st.plans[st.commits[s].plan])
    ensures EndCommit(st, s).broker ==
      if st.commits[s].acquired then Release(st.broker, st.commits[s].claims) else st.broker
  {
    hide Release;
  }

  /** Cancellation wins: whenever a request is cancelled while a commit of one of its plans is in flight,
      that commit, however the steps interleave, ends with the plan cancelled and with nothing that it
      acquired still held. */
  lemma CancelWinsOverCommit(cfg: Config, r: Run, i: nat, j: nat, s: Socket)
    requires IsRun(cfg, r) && i <= j < |r.events| && NumbersLast(r, j)
    requires s in r.states[i].commits && r.states[i].commits[s].plan in r.states[i].plans
    requires r.states[i].plans[r.states[i].commits[s].plan].plan.requestId in r.states[i].cancelled
    requires r.events[j] == EEndCommit(s) && forall k :: i <= k < j ==> r.events[k] != EEndCommit(s)
    ensures var id, before, after := r.states[i].commits[s].plan, r.states[j], r.states[j + 1];
      && id in after.plans && after.plans[id].state.Cancelled? && s !in after.commits
      && s in before.commits && before.commits[s].Answered?
      && (before.commits[s].acquired ==>
            forall c :: c in r.states[i].plans[id].plan.requiredResourceClaims ==> after.broker.Held(c) == 0)
      && (!before.commits[s].acquired ==> after.broker == before.broker)
  {
    hide Initial, EndCommit, Release, Numbered;
    StillInFlight(cfg, r, i, j, s);
    CancellationsGrow(cfg, r, i, j);
    var before := r.states[j];
    assert Enabled(before, r.events[j]);
    EndedPlans(before, s);
    EndedLedger(before, s);
    EndCommitIsTame(before, s);
    ReleasedClaims(before.broker, before.commits[s].claims);
  }

  lemma ReleasedClaims(l: Ledger, resources: seq<u64>)
    ensures forall c :: c in resources ==> Release(l, resources).Held(c) == 0
  {
  }
}
