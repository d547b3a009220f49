/** What submissions, revalidations, handoffs, results, cancellations and supersessions do to the plans, in the
    fields of the state. */
module PlanEffects {
  import opened Core
  import opened Model
  import opened Planner
  import opened PlanFacts
  import opened Revalidation
  import opened Broker
  import opened Coordinator
  import opened CoordinatorInvariants
  import opened CommitGrants

  /** The plan's record is in this state after the step, and every other record as before. */
  ghost predicate OnlyMoves(st: State, after: State, id: u64, s: PlanState) {
    id in st.plans && after.plans == st.plans[id := st.plans[id].(state := s)]
  }

  /** What is held of every resource is what was, but nothing on these. */
  ghost predicate GivesBack(st: State, after: State, claims: seq<u64>) {
    && (forall x :: Holding(after.broker, x) == if x in claims then 0 else Holding(st.broker, x))
    && after.broker == st.broker.(held := after.broker.held)
  }

  lemma ReleaseGivesBack(l: Ledger, claims: seq<u64>)
    ensures forall x :: Holding(Release(l, claims), x) == if x in claims then 0 else Holding(l, x)
    ensures Release(l, claims) == l.(held := Release(l, claims).held)
  {
  }

  // ----- submission -----

  /** The endpoint's publisher: that of the first endpoint with this id. */
  ghost predicate PublishedBy(es: seq<Endpoint>, id: u64, worker: u64, boot: u64) {
    || (worker == 0 && boot == 0 && forall e :: e in es ==> e.id != id)
    || exists k :: && 0 <= k < |es| && es[k].id == id && es[k].worker == worker && es[k].workerBoot == boot
                   && forall j :: 0 <= j < k ==> es[j].id != id
  }

  lemma {:induction false} OwnerPublished(es: seq<Endpoint>, id: u64)
    ensures PublishedBy(es, id, OwnerOf(es, id).0, OwnerOf(es, id).1)
  {
    if es != [] {
      if es[0].id == id {
        assert es[0].worker == OwnerOf(es, id).0;
      } else {
        OwnerPublished(es[1..], id);
        PublishedLater(es, id, OwnerOf(es, id).0, OwnerOf(es, id).1);
      }
    }
  }

  lemma PublishedLater(es: seq<Endpoint>, id: u64, worker: u64, boot: u64)
    requires es != [] && es[0].id != id && PublishedBy(es[1..], id, worker, boot)
    ensures PublishedBy(es, id, worker, boot)
  {
    var tail := es[1..];
    assert es == [es[0]] + tail;
    if k :| && 0 <= k < |tail| && tail[k].id == id && tail[k].worker == worker && tail[k].workerBoot == boot
            && forall j :: 0 <= j < k ==> tail[j].id != id {
      assert es[k + 1] == tail[k] && forall j :: 1 <= j < k + 1 ==> es[j] == tail[j - 1];
    }
  }

  /** A request with a null id, or of a cancelled request, changes nothing. Otherwise it is recorded. If planning
      succeeds the plan is filed, ready, under its id, with the publisher of the endpoint its data leaves from, and
      is the current one of the request; if planning throws, the process ends; if it fails, no plan is added. */
  lemma SubmissionTakesEffect(cfg: Config, st: State, e: Event)
    requires Enabled(st, e) && e.ESubmitRequest?
    ensures var after, req := Step(cfg, st, e), e.request;
      if req.id == 0 || req.id in st.cancelled then after == st
      else
        && after.requests == st.requests + [req]
        && (Succeeds(req, st.snap, cfg.weights, cfg.bounds, st.ids) ==>
              var plan := ThePlan(req, st.snap, cfg.weights, cfg.bounds, st.ids);
              && plan.id in after.plans && after.plans - {plan.id} == st.plans - {plan.id}
              && after.plans[plan.id].plan == plan && after.plans[plan.id].state == PlanReady
              && (plan.orderedStages != [] ==>
                    PublishedBy(st.snap.endpoints, plan.orderedStages[0].source, after.plans[plan.id].worker,
                                after.plans[plan.id].boot))
              && after.currentByRequest == st.currentByRequest[req.id := plan.id] && !after.crashed)
        && (!Succeeds(req, st.snap, cfg.weights, cfg.bounds, st.ids) ==>
              after.plans == st.plans && after.currentByRequest == st.currentByRequest)
        && (after.crashed <==> PlanCommunication(req, st.snap, cfg.weights, cfg.bounds, st.ids).Threw?)
        && after == st.(requests := after.requests, plans := after.plans, currentByRequest := after.currentByRequest,
                        ids := after.ids, crashed := after.crashed)
  {
    hide PlanCommunication, OwnerOf, PublishedBy;
    var after, req := Step(cfg, st, e), e.request;
    if Succeeds(req, st.snap, cfg.weights, cfg.bounds, st.ids) {
      SuccessHasPlan(req, st.snap, cfg, st.ids);
      var plan := ThePlan(req, st.snap, cfg.weights, cfg.bounds, st.ids);
      if plan.orderedStages != [] { OwnerPublished(st.snap.endpoints, plan.orderedStages[0].source); }
    }
    SubmitTouchesOnlyPlans(cfg, st, req);
  }

  // ----- commit, first phase -----

  /** A plan that is ready, or already waiting for its claims, of a request not cancelled, starts waiting for the
      answer to a commit of its claims; any other commit changes nothing. */
  lemma CommitBegins(cfg: Config, st: State, e: Event)
    requires Enabled(st, e) && e.EBeginCommit?
    ensures var after, id := Step(cfg, st, e), e.plan;
      if && id in st.plans && st.plans[id].plan.requestId !in st.cancelled
         && (st.plans[id].state == PlanReady || st.plans[id].state == AwaitingResourceCommit) then
        && OnlyMoves(st, after, id, AwaitingResourceCommit)
        && after.commits == st.commits[e.sock :=
             Asking(id, st.plans[id].plan.requiredResourceClaims, Share(st.plans[id].plan))]
        && after == st.(plans := after.plans, commits := after.commits)
      else after == st
  {
  }

  // ----- revalidation and handoff -----

  /** A revalidated plan awaits execution exactly if everything it is bound to stands, whatever its state was, and
      needs revalidation otherwise. */
  lemma RevalidationTakesEffect(cfg: Config, st: State, e: Event)
    requires Enabled(st, e) && e.ERevalidate?
    ensures var after := Step(cfg, st, e);
      if e.plan !in st.plans then after == st
      else
        && OnlyMoves(st, after, e.plan,
                     if Revalidates(st.plans[e.plan].plan, st.snap) then AwaitingExecution else RevalidationRequired)
        && after == st.(plans := after.plans)
  {
    hide PlanVerdict, Revalidates;
    if e.plan in st.plans { PlanVerdictDecides(st.plans[e.plan].plan, st.snap); }
  }

  /** A handed-off plan becomes active likewise. */
  lemma HandoffTakesEffect(cfg: Config, st: State, e: Event)
    requires Enabled(st, e) && e.EHandoff?
    ensures var after := Step(cfg, st, e);
      if e.plan !in st.plans then after == st
      else
        && OnlyMoves(st, after, e.plan,
                     if Revalidates(st.plans[e.plan].plan, st.snap) then Active else RevalidationRequired)
        && after == st.(plans := after.plans)
  {
    hide PlanVerdict, Revalidates;
    if e.plan in st.plans { PlanVerdictDecides(st.plans[e.plan].plan, st.snap); }
  }

  // ----- results, cancellations, supersessions -----

  /** An active plan is completed or failed as reported, anonymously or by the incarnation it was made for; any
      other result changes nothing. */
  lemma ResultTakesEffect(cfg: Config, st: State, e: Event)
    requires Enabled(st, e) && e.EResult?
    ensures var after, id := Step(cfg, st, e), e.plan;
      if && id in st.plans && st.plans[id].state == Active
         && (e.worker == 0 || (e.worker == st.plans[id].worker && e.boot == st.plans[id].boot)) then
        OnlyMoves(st, after, id, if e.ok then Completed else Failed) && after == st.(plans := after.plans)
      else after == st
  {
  }

  /** A cancellation marks the request. A named plan that is waiting for its claims, committed, awaiting execution
      or active gives its claims back; it is cancelled, unless it is completed. */
  lemma CancellationTakesEffect(cfg: Config, st: State, e: Event)
    requires Enabled(st, e) && e.ECancel?
    ensures var after, id := Step(cfg, st, e), e.plan;
      && after.cancelled == st.cancelled + {e.requestId}
      && (id !in st.plans ==> after == st.(cancelled := after.cancelled))
      && (id in st.plans ==>
            && (if st.plans[id].state in [AwaitingResourceCommit, Committed, AwaitingExecution, Active] then
                  GivesBack(st, after, st.plans[id].plan.requiredResourceClaims)
                else after.broker == st.broker)
            && (if st.plans[id].state == Completed then after.plans == st.plans
                else OnlyMoves(st, after, id, Cancelled))
            && after == st.(cancelled := after.cancelled, broker := after.broker, plans := after.plans))
  {
    hide Release, Holding, Register, PublishEndpoint, PublishLink, PublishCapacity, PublishCongestion, Disconnect,
      SubmitRequest, BeginCommit, AskBroker, EndCommit, Revalidate, Handoff, ExecutionResult, Supersede;
    if e.plan in st.plans {
      var rec := st.plans[e.plan];
      ReleaseGivesBack(st.broker, rec.plan.requiredResourceClaims);
      assert st.plans == st.plans[e.plan := rec];
    }
  }

  ghost predicate MayBeSuperseded(st: State, id: u64) {
    id in st.plans && st.plans[id].state != Completed && st.plans[id].state != Cancelled
  }

  ghost predicate HasOlder(st: State, e: Event)
    requires e.ESupersede?
  {
    && e.requestId in st.currentByRequest && st.currentByRequest[e.requestId] != e.plan
    && st.currentByRequest[e.requestId] in st.plans
  }

  lemma NamedIsMarked(st: State, id: u64)
    ensures var named := SupersedeNamed(st, id);
      && named == st.(plans := named.plans, broker := named.broker)
      && named.plans == (if MayBeSuperseded(st, id) then st.plans[id := st.plans[id].(state := Superseded)]
                         else st.plans)
      && (if MayBeSuperseded(st, id) then GivesBack(st, named, st.plans[id].plan.requiredResourceClaims)
          else named.broker == st.broker)
  {
    hide Release, Holding;
    if id in st.plans { ReleaseGivesBack(st.broker, st.plans[id].plan.requiredResourceClaims); }
  }

  /** A supersession marks the named plan, unless it is completed or cancelled, and gives its claims back; and it
      marks the request's current plan, when that is another one, and records that the named one supersedes it. */
  lemma SupersessionTakesEffect(cfg: Config, st: State, e: Event)
    requires Enabled(st, e) && e.ESupersede?
    ensures var after, id := Step(cfg, st, e), e.plan;
      && (forall x :: x in st.plans ==> x in after.plans && after.plans[x] == st.plans[x].(state :=
            if x == id && MayBeSuperseded(st, id) then Superseded
            else if HasOlder(st, e) && x == st.currentByRequest[e.requestId] then Superseded
            else st.plans[x].state))
      && after.plans.Keys == st.plans.Keys
      && (if MayBeSuperseded(st, id) then GivesBack(st, after, st.plans[id].plan.requiredResourceClaims)
          else after.broker == st.broker)
      && after.supersessions == st.supersessions
           + (if HasOlder(st, e) then [(st.currentByRequest[e.requestId], id)] else [])
      && after == st.(plans := after.plans, broker := after.broker, supersessions := after.supersessions)
  {
    hide Release, Holding, SupersedeNamed, GivesBack, Register, PublishEndpoint, PublishLink, PublishCapacity,
      PublishCongestion, Disconnect, SubmitRequest, BeginCommit, AskBroker, EndCommit, Revalidate, Handoff,
      ExecutionResult, Cancel;
    var named, after := SupersedeNamed(st, e.plan), Step(cfg, st, e);
    NamedIsMarked(st, e.plan);
    assert st.supersessions + [] == st.supersessions;
    if MayBeSuperseded(st, e.plan) { SameGiveBack(st, named, after, st.plans[e.plan].plan.requiredResourceClaims); }
  }

  lemma SameGiveBack(st: State, named: State, after: State, claims: seq<u64>)
    requires GivesBack(st, named, claims) && after.broker == named.broker
    ensures GivesBack(st, after, claims)
  {
    hide Holding;
  }
}
