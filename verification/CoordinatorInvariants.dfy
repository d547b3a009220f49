/** What every step of the coordinator keeps. */
module CoordinatorInvariants {
  import opened Core
  import opened Model
  import opened Sorting
  import opened Planner
  import opened PlanFacts
  import opened Revalidation
  import opened Broker
  import opened Coordinator

  // ----- authority -----

  /** The boots in the snapshot are those of the live workers, no live incarnation is fenced and every
      dead one is, and every endpoint carries a stamp of a registered worker. */
  ghost predicate Authority(st: State) {
    && st.snap.sourceBoots == st.snap.workerBoots
    && (forall w :: w in st.snap.workerBoots <==> w in st.workers && st.workers[w].alive)
    && (forall w :: w in st.workers ==> w != 0 && st.workers[w].boot != 0)
    && (forall w :: w in st.snap.workerBoots ==> st.snap.workerBoots[w] == st.workers[w].boot)
    && (forall w :: w in st.workers ==> (st.workers[w].alive <==> (w, st.workers[w].boot) !in st.fenced))
    && (forall i :: 0 <= i < |st.snap.endpoints| ==> Stamped(st, st.snap.endpoints[i]))
  }

  ghost predicate Stamped(st: State, e: Endpoint) { e.worker in st.workers && e.workerBoot != 0 }

  lemma {:induction false} PutEndpointElements(es: seq<Endpoint>, e: Endpoint)
    ensures forall x :: x in PutEndpoint(es, e) ==> x == e || x in es
    ensures e in PutEndpoint(es, e)
  {
    if es != [] && es[0].id != e.id {
      PutEndpointElements(es[1..], e);
      assert es == [es[0]] + es[1..];
    }
  }

  lemma PublishEndpointKeepsAuthority(st: State, worker: u64, boot: u64, endpoint: Endpoint)
    requires Authority(st)
    ensures Authority(PublishEndpoint(st, worker, boot, endpoint))
  {
    hide PutEndpoint;
    if Authorized(st, worker, boot) {
      var e := endpoint.(worker := worker, workerBoot := boot);
      var after := PublishEndpoint(st, worker, boot, endpoint);
      PutEndpointElements(st.snap.endpoints, e);
      forall i | 0 <= i < |after.snap.endpoints| ensures Stamped(after, after.snap.endpoints[i]) {
        var x := after.snap.endpoints[i];
        assert x in after.snap.endpoints;
        if x != e {
          var j :| 0 <= j < |st.snap.endpoints| && st.snap.endpoints[j] == x;
          assert Stamped(st, st.snap.endpoints[j]);
        }
      }
    }
  }

  lemma RegisterKeepsAuthority(st: State, s: Socket, worker: u64, boot: u64)
    requires Authority(st)
    ensures Authority(Register(st, s, worker, boot))
  {
    var after := Register(st, s, worker, boot);
    forall i | 0 <= i < |after.snap.endpoints| ensures Stamped(after, after.snap.endpoints[i]) {
      assert Stamped(st, st.snap.endpoints[i]);
    }
  }

  lemma NobodyFenced(st: State, id: u64)
    requires id !in st.workers
    ensures Fence(st, id) == st.(snap := Fence(st, id).snap)
    ensures Fence(st, id).snap ==
      st.snap.(workerBoots := st.snap.workerBoots - {id}, sourceBoots := st.snap.sourceBoots - {id})
  {
    hide Disable, Without;
  }

  /** What fencing a worker does to the evidence and the workers. */
  lemma FencedWorker(st: State, id: u64)
    requires id in st.workers
    ensures var after := Fence(st, id);
      && after.snap.workerBoots == st.snap.workerBoots - {id} && after.snap.sourceBoots == st.snap.sourceBoots - {id}
      && after.workers == st.workers[id := st.workers[id].(alive := false)]
      && after.fenced == st.fenced + {(id, st.workers[id].boot)}
      && after.snap.endpoints == Disable(st.workers[id].endpoints, st.snap.endpoints)
      && after.snap.generations == st.snap.generations.(topology := Next64(st.snap.generations.topology))
  {
    hide Disable, Without;
  }

  lemma FenceKeepsStamps(st: State, id: u64)
    requires forall i :: 0 <= i < |st.snap.endpoints| ==> Stamped(st, st.snap.endpoints[i])
    ensures var after := Fence(st, id);
      forall i :: 0 <= i < |after.snap.endpoints| ==> Stamped(after, after.snap.endpoints[i])
  {
    hide Fence;
    var after := Fence(st, id);
    if id in st.workers { FencedWorker(st, id); } else { NobodyFenced(st, id); }
    forall i | 0 <= i < |after.snap.endpoints| ensures Stamped(after, after.snap.endpoints[i]) {
      assert Stamped(st, st.snap.endpoints[i]);
    }
  }

  lemma FenceKeepsAuthority(st: State, id: u64)
    requires Authority(st)
    ensures Authority(Fence(st, id))
  {
    hide Fence, Disable, Stamped;
    if id in st.workers { FencedWorker(st, id); } else { NobodyFenced(st, id); }
    FenceKeepsStamps(st, id);
  }

  /** Handlers that do not publish, register or fence leave all of this alone. */
  lemma SameAuthority(st: State, after: State)
    requires Authority(st)
    requires after.workers == st.workers && after.fenced == st.fenced && after.snap.endpoints == st.snap.endpoints
    requires after.snap.workerBoots == st.snap.workerBoots && after.snap.sourceBoots == st.snap.sourceBoots
    ensures Authority(after)
  {
    forall i | 0 <= i < |after.snap.endpoints| ensures Stamped(after, after.snap.endpoints[i]) {
      assert Stamped(st, st.snap.endpoints[i]);
    }
  }

  lemma PublishLinkKeepsAuthority(st: State, worker: u64, boot: u64, link: Link)
    requires Authority(st)
    ensures Authority(PublishLink(st, worker, boot, link))
  {
    hide PutLink;
    var after := PublishLink(st, worker, boot, link);
    forall i | 0 <= i < |after.snap.endpoints| ensures Stamped(after, after.snap.endpoints[i]) {
      assert Stamped(st, st.snap.endpoints[i]);
    }
  }

  // ----- two kinds of steps -----

  /** The step is about plans rather than evidence. */
  predicate PlanStep(e: Event) {
    !e.ERegister? && !e.EPublishEndpoint? && !e.EPublishLink? && !e.EPublishCapacity? && !e.EPublishCongestion?
    && !e.EDisconnect?
  }

  /** `after` differs from `st` at most in the states of plans, the ledger, the commits in flight, the
      cancellations and the supersessions; and no plan became committable. */
  ghost predicate OnlyStates(st: State, after: State) {
    && after.snap == st.snap && after.workers == st.workers && after.fenced == st.fenced
    && after.socketToWorker == st.socketToWorker && after.ids == st.ids && after.plans.Keys == st.plans.Keys
    && forall id :: id in st.plans ==>
         && after.plans[id] == st.plans[id].(state := after.plans[id].state)
         && (Committable(after.plans[id].state) ==> Committable(st.plans[id].state))
  }

  lemma SetStateIsTame(st: State, plan: u64, s: PlanState)
    requires plan in st.plans && (Committable(s) ==> Committable(st.plans[plan].state))
    ensures OnlyStates(st, SetState(st, plan, s))
    ensures SetState(st, plan, s).broker == st.broker && SetState(st, plan, s).commits == st.commits
    ensures SetState(st, plan, s).cancelled == st.cancelled
  {
  }

  lemma FreeIsTame(st: State, s: Socket, held: bool, claims: seq<u64>)
    ensures var free := st.(commits := st.commits - {s});
      && OnlyStates(st, free) && OnlyStates(st, ReleaseIf(free, held, claims))
      && ReleaseIf(free, held, claims).commits == free.commits
      && ReleaseIf(free, held, claims).broker == if held then Release(st.broker, claims) else st.broker
  {
    hide Release;
  }

  lemma TameTwice(a: State, b: State, c: State)
    requires OnlyStates(a, b) && OnlyStates(b, c)
    ensures OnlyStates(a, c)
  {
  }

  lemma EndCommitIsTame(st: State, s: Socket)
    requires s in st.commits && st.commits[s].Answered?
    ensures OnlyStates(st, EndCommit(st, s)) && EndCommit(st, s).commits == st.commits - {s}
    ensures EndCommit(st, s).broker == st.broker || EndCommit(st, s).broker == Release(st.broker, st.commits[s].claims)
  {
    hide Release, ReleaseIf, SetState, OnlyStates;
    var c := st.commits[s];
    var free := st.(commits := st.commits - {s});
    var freed := ReleaseIf(free, c.acquired, c.claims);
    FreeIsTame(st, s, c.acquired, c.claims);
    if c.plan in st.plans {
      TameKeepsKeys(st, freed);
      SetStateIsTame(freed, c.plan, Cancelled);
      SetStateIsTame(free, c.plan, Failed);
      EndState(st, free, freed, c);
    }
  }

  lemma TameKeepsKeys(st: State, after: State)
    requires OnlyStates(st, after)
    ensures after.plans.Keys == st.plans.Keys
  {
  }

  lemma EndState(st: State, free: State, freed: State, c: Commit)
    requires OnlyStates(st, free) && OnlyStates(st, freed) && c.plan in st.plans && c.plan in free.plans
      && c.plan in freed.plans
    ensures forall x :: x in [Cancelled, Failed, Committed] ==>
      && OnlyStates(st, SetState(free, c.plan, x)) && OnlyStates(st, SetState(freed, c.plan, x))
      && SetState(free, c.plan, x).broker == free.broker && SetState(free, c.plan, x).commits == free.commits
      && SetState(freed, c.plan, x).broker == freed.broker && SetState(freed, c.plan, x).commits == freed.commits
  {
    hide OnlyStates, SetState;
    forall x | x in [Cancelled, Failed, Committed]
      ensures OnlyStates(st, SetState(free, c.plan, x)) && OnlyStates(st, SetState(freed, c.plan, x))
      ensures SetState(free, c.plan, x).broker == free.broker && SetState(free, c.plan, x).commits == free.commits
      ensures SetState(freed, c.plan, x).broker == freed.broker && SetState(freed, c.plan, x).commits == freed.commits
    {
      SetStateIsTame(free, c.plan, x);
      SetStateIsTame(freed, c.plan, x);
      TameTwice(st, free, SetState(free, c.plan, x));
      TameTwice(st, freed, SetState(freed, c.plan, x));
    }
  }

  lemma CommitIsTame(st: State, s: Socket, plan: u64)
    ensures OnlyStates(st, BeginCommit(st, s, plan))
    ensures s in st.commits && st.commits[s].Asking? ==> OnlyStates(st, AskBroker(st, s))
  {
    hide Acquire;
  }

  lemma RevalidationIsTame(st: State, plan: u64)
    ensures OnlyStates(st, Revalidate(st, plan)) && OnlyStates(st, Handoff(st, plan))
    ensures Revalidate(st, plan).broker == Handoff(st, plan).broker == st.broker
    ensures Revalidate(st, plan).commits == Handoff(st, plan).commits == st.commits
    ensures Revalidate(st, plan).cancelled == Handoff(st, plan).cancelled == st.cancelled
  {
    hide PlanVerdict, SetState, OnlyStates;
    if plan in st.plans {
      SetStateIsTame(st, plan, AwaitingExecution);
      SetStateIsTame(st, plan, Active);
      SetStateIsTame(st, plan, RevalidationRequired);
    } else {
      TameItself(st);
    }
  }

  lemma TameItself(st: State)
    ensures OnlyStates(st, st)
  {
  }

  lemma ResultIsTame(st: State, plan: u64, worker: u64, boot: u64, ok: bool)
    ensures OnlyStates(st, ExecutionResult(st, plan, worker, boot, ok))
  {
    hide OnlyStates, SetState;
    if AcceptsResult(st, plan, worker, boot) {
      SetStateIsTame(st, plan, if ok then Completed else Failed);
    } else {
      TameItself(st);
    }
  }

  /** Nothing but the ledger, the commits in flight, the cancellations and the supersessions differ. */
  ghost predicate SameRecords(st: State, after: State) {
    after == st.(broker := after.broker, commits := after.commits, cancelled := after.cancelled,
                 supersessions := after.supersessions)
  }

  lemma SameRecordsIsTame(st: State, after: State)
    requires SameRecords(st, after)
    ensures OnlyStates(st, after)
  {
  }

  /** `Cancel` in two steps: the mark and the release, then the plan's state. */
  function Freed(st: State, request: u64, plan: u64): State {
    var marked := st.(cancelled := st.cancelled + {request});
    if plan !in st.plans then marked
    else ReleaseIf(marked, HoldsClaims(st.plans[plan].state), st.plans[plan].plan.requiredResourceClaims)
  }

  lemma CancelInSteps(st: State, request: u64, plan: u64)
    ensures SameRecords(st, Freed(st, request, plan))
    ensures Freed(st, request, plan).commits == st.commits
      && Freed(st, request, plan).cancelled == st.cancelled + {request}
    ensures Freed(st, request, plan).plans == st.plans
    ensures Cancel(st, request, plan) ==
      if plan !in st.plans || st.plans[plan].state.Completed? || st.plans[plan].state.Cancelled?
        then Freed(st, request, plan)
      else SetState(Freed(st, request, plan), plan, Cancelled)
  {
    hide Release, SetState, HoldsClaims;
  }

  lemma CancelIsTame(st: State, request: u64, plan: u64)
    ensures OnlyStates(st, Cancel(st, request, plan))
  {
    hide OnlyStates, SetState, Cancel, Freed, SameRecords;
    var freed := Freed(st, request, plan);
    CancelInSteps(st, request, plan);
    SameRecordsIsTame(st, freed);
    if plan in st.plans {
      SetStateIsTame(freed, plan, Cancelled);
      TameTwice(st, freed, SetState(freed, plan, Cancelled));
    }
  }

  lemma SupersedeNamedIsTame(st: State, plan: u64)
    ensures var named := SupersedeNamed(st, plan);
      OnlyStates(st, named) && named.commits == st.commits && named.cancelled == st.cancelled
      && named.plans.Keys == st.plans.Keys
  {
    hide OnlyStates, SetState, Release, SameRecords;
    TameItself(st);
    if plan in st.plans {
      var marked := SetState(st, plan, Superseded);
      SetStateIsTame(st, plan, Superseded);
      TameKeepsKeys(st, marked);
      var named := marked.(broker := Release(st.broker, st.plans[plan].plan.requiredResourceClaims));
      OtherLedger(marked, named);
      TameTwice(st, marked, named);
    }
  }

  lemma OtherLedger(st: State, after: State)
    requires after == st.(broker := after.broker, supersessions := after.supersessions)
    ensures OnlyStates(st, after)
  {
    hide OnlyStates;
    SameRecordsIsTame(st, after);
  }

  lemma SupersedeIsTame(st: State, request: u64, plan: u64)
    ensures OnlyStates(st, Supersede(st, request, plan))
    ensures Supersede(st, request, plan).commits == st.commits && Supersede(st, request, plan).cancelled == st.cancelled
  {
    hide OnlyStates, SetState, SupersedeNamed;
    var named := SupersedeNamed(st, plan);
    SupersedeNamedIsTame(st, plan);
    if request in st.currentByRequest && st.currentByRequest[request] in named.plans {
      var older := st.currentByRequest[request];
      var marked := SetState(named, older, Superseded);
      SetStateIsTame(named, older, Superseded);
      TameTwice(st, named, marked);
      var after := marked.(supersessions := st.supersessions + [(older, plan)]);
      OtherLedger(marked, after);
      TameTwice(st, marked, after);
    }
  }

  lemma PlanStepIsTame(cfg: Config, st: State, e: Event)
    requires Enabled(st, e) && PlanStep(e) && !e.ESubmitRequest?
    ensures OnlyStates(st, Step(cfg, st, e))
  {
    hide OnlyStates, BeginCommit, AskBroker, EndCommit, Revalidate, Handoff, ExecutionResult, Cancel, Supersede;
    match e
    case EBeginCommit(s, plan) => CommitIsTame(st, s, plan);
    case EAskBroker(s) => CommitIsTame(st, s, 0);
    case EEndCommit(s) => EndCommitIsTame(st, s);
    case ERevalidate(_, plan) => RevalidationIsTame(st, plan);
    case EHandoff(_, plan) => RevalidationIsTame(st, plan);
    case EResult(_, plan, worker, boot, ok) => ResultIsTame(st, plan, worker, boot, ok);
    case ECancel(_, requestId, plan) => CancelIsTame(st, requestId, plan);
    case ESupersede(_, requestId, plan) => SupersedeIsTame(st, requestId, plan);
  }

  lemma SubmitTouchesOnlyPlans(cfg: Config, st: State, req: Request)
    ensures var after := SubmitRequest(cfg, st, req);
      after == st.(requests := after.requests, ids := after.ids, crashed := after.crashed, plans := after.plans,
                   currentByRequest := after.currentByRequest)
  {
    hide PlanCommunication, Adopt;
    if AcceptsRequest(st, req) {
      AdoptTouchesOnlyPlans(st, req, PlanCommunication(req, st.snap, cfg.weights, cfg.bounds, st.ids));
    }
  }

  lemma AdoptTouchesOnlyPlans(st: State, req: Request, p: Planned)
    ensures var after := Adopt(st, req, p);
      after == st.(requests := after.requests, ids := after.ids, crashed := after.crashed, plans := after.plans,
                   currentByRequest := after.currentByRequest)
  {
    hide NewRecord;
  }

  lemma PlanStepKeepsEvidence(cfg: Config, st: State, e: Event)
    requires Enabled(st, e) && PlanStep(e)
    ensures var after := Step(cfg, st, e);
      after.snap == st.snap && after.workers == st.workers && after.fenced == st.fenced
      && after.socketToWorker == st.socketToWorker
  {
    hide SubmitRequest, BeginCommit, AskBroker, EndCommit, Revalidate, Handoff, ExecutionResult, Cancel, Supersede;
    if e.ESubmitRequest? {
      SubmitTouchesOnlyPlans(cfg, st, e.request);
    } else {
      PlanStepIsTame(cfg, st, e);
    }
  }

  lemma EvidenceStepKeepsPlans(cfg: Config, st: State, e: Event)
    requires Enabled(st, e) && !PlanStep(e)
    ensures var after := Step(cfg, st, e);
      && after.plans == st.plans && after.commits == st.commits && after.broker == st.broker
      && after.ids == st.ids && after.cancelled == st.cancelled
  {
    hide Register, PublishEndpoint, PublishLink, PublishCapacity, PublishCongestion, Fence;
    match e
    case ERegister(s, worker, boot) => RegisterKeepsPlans(st, s, worker, boot);
    case EPublishEndpoint(_, worker, boot, endpoint) => PublicationsKeepPlans(st, worker, boot, endpoint);
    case EPublishLink(_, worker, boot, link) => LinksKeepPlans(st, worker, boot, link);
    case EPublishCapacity(_, worker, boot, linkId, capacity) => CapacityKeepsPlans(st, worker, boot, linkId, capacity);
    case EPublishCongestion(_, worker, boot, linkId, congestion) =>
      CongestionKeepsPlans(st, worker, boot, linkId, congestion);
    case EDisconnect(s) => if s in st.socketToWorker { FenceKeepsPlans(st, st.socketToWorker[s]); }
  }

  /** Everything but the evidence and the workers is the same. */
  ghost predicate SamePlans(st: State, after: State) {
    after == st.(snap := after.snap, workers := after.workers, socketToWorker := after.socketToWorker,
      fenced := after.fenced)
  }

  lemma RegisterKeepsPlans(st: State, s: Socket, worker: u64, boot: u64)
    ensures SamePlans(st, Register(st, s, worker, boot))
  {
  }

  lemma PublicationsKeepPlans(st: State, worker: u64, boot: u64, endpoint: Endpoint)
    ensures SamePlans(st, PublishEndpoint(st, worker, boot, endpoint))
  {
    hide PutEndpoint;
  }

  lemma LinksKeepPlans(st: State, worker: u64, boot: u64, link: Link)
    ensures SamePlans(st, PublishLink(st, worker, boot, link))
  {
    hide PutLink;
  }

  lemma CapacityKeepsPlans(st: State, worker: u64, boot: u64, link: u64, capacity: Capacity)
    ensures SamePlans(st, PublishCapacity(st, worker, boot, link, capacity))
  {
    hide MapLinks;
  }

  lemma CongestionKeepsPlans(st: State, worker: u64, boot: u64, link: u64, congestion: Congestion)
    ensures SamePlans(st, PublishCongestion(st, worker, boot, link, congestion))
  {
    hide MapLinks;
  }

  lemma FenceKeepsPlans(st: State, id: u64)
    ensures SamePlans(st, Fence(st, id))
  {
    hide Without, Disable;
  }

  // ----- authority, continued -----

  lemma AuthorityStep(cfg: Config, st: State, e: Event)
    requires Authority(st) && Enabled(st, e)
    ensures Authority(Step(cfg, st, e))
  {
    hide Authority, Register, PublishEndpoint, PublishLink, PublishCapacity, PublishCongestion, Disconnect,
      SubmitRequest, BeginCommit, AskBroker, EndCommit, Revalidate, Handoff, ExecutionResult, Cancel, Supersede;
    if PlanStep(e) {
      PlanStepKeepsEvidence(cfg, st, e);
      SameAuthority(st, Step(cfg, st, e));
      return;
    }
    match e
    case ERegister(s, worker, boot) => RegisterKeepsAuthority(st, s, worker, boot);
    case EPublishEndpoint(_, worker, boot, endpoint) => PublishEndpointKeepsAuthority(st, worker, boot, endpoint);
    case EPublishLink(_, worker, boot, link) => PublishLinkKeepsAuthority(st, worker, boot, link);
    case EPublishCapacity(_, worker, boot, linkId, capacity) =>
      CapacityKeepsAuthority(st, worker, boot, linkId, capacity);
    case EPublishCongestion(_, worker, boot, linkId, congestion) =>
      CongestionKeepsAuthority(st, worker, boot, linkId, congestion);
    case EDisconnect(s) => DisconnectKeepsAuthority(st, s);
  }

  lemma CapacityKeepsAuthority(st: State, worker: u64, boot: u64, link: u64, capacity: Capacity)
    requires Authority(st)
    ensures Authority(PublishCapacity(st, worker, boot, link, capacity))
  {
    hide Authority, MapLinks;
    SameAuthority(st, PublishCapacity(st, worker, boot, link, capacity));
  }

  lemma CongestionKeepsAuthority(st: State, worker: u64, boot: u64, link: u64, congestion: Congestion)
    requires Authority(st)
    ensures Authority(PublishCongestion(st, worker, boot, link, congestion))
  {
    hide Authority, MapLinks;
    SameAuthority(st, PublishCongestion(st, worker, boot, link, congestion));
  }

  lemma DisconnectKeepsAuthority(st: State, s: Socket)
    requires Authority(st)
    ensures Authority(Disconnect(st, s))
  {
    hide Authority, Fence;
    if s in st.socketToWorker {
      FenceKeepsAuthority(st, st.socketToWorker[s]);
      SameAuthority(Fence(st, st.socketToWorker[s]), Disconnect(st, s));
    }
  }

  // ----- unique ids -----

  ghost predicate UniqueEvidence(st: State) {
    UniqueEndpoints(st.snap.endpoints) && UniqueLinks(st.snap.links)
  }

  lemma {:induction false} PutEndpointKeepsUnique(es: seq<Endpoint>, e: Endpoint)
    requires UniqueEndpoints(es)
    ensures UniqueEndpoints(PutEndpoint(es, e))
  {
    if es != [] && es[0].id != e.id {
      PutEndpointKeepsUnique(es[1..], e);
      PutEndpointElements(es[1..], e);
      var rest := PutEndpoint(es[1..], e);
      forall j | 0 <= j < |rest| ensures rest[j].id != es[0].id {
        assert rest[j] in rest;
        if rest[j] != e {
          var k :| 0 <= k < |es[1..]| && es[1..][k] == rest[j];
          assert es[k + 1] == rest[j];
        }
      }
    } else if es != [] {
      assert forall k :: 0 <= k < |es[1..]| ==> es[1..][k] == es[k + 1];
    }
  }

  lemma {:induction false} PutLinkKeepsUnique(ls: seq<Link>, l: Link)
    requires UniqueLinks(ls)
    ensures UniqueLinks(PutLink(ls, l))
    ensures forall x :: x in PutLink(ls, l) ==> x == l || x in ls
  {
    if ls != [] && ls[0].id != l.id {
      PutLinkKeepsUnique(ls[1..], l);
      var rest := PutLink(ls[1..], l);
      assert ls == [ls[0]] + ls[1..];
      forall j | 0 <= j < |rest| ensures rest[j].id != ls[0].id {
        assert rest[j] in rest;
        if rest[j] != l {
          var k :| 0 <= k < |ls[1..]| && ls[1..][k] == rest[j];
          assert ls[k + 1] == rest[j];
        }
      }
    } else if ls != [] {
      assert forall k :: 0 <= k < |ls[1..]| ==> ls[1..][k] == ls[k + 1];
    }
  }

  lemma {:induction false} WithoutKeepsUnique(ids: seq<u64>, ls: seq<Link>)
    requires UniqueLinks(ls)
    ensures UniqueLinks(Without(ids, ls))
    ensures forall x :: x in Without(ids, ls) ==> x in ls && x.id !in ids
  {
    if ls != [] {
      var front, l := ls[..|ls| - 1], ls[|ls| - 1];
      WithoutKeepsUnique(ids, front);
      var kept := Without(ids, front);
      forall j | 0 <= j < |kept| ensures kept[j].id != l.id {
        assert kept[j] in kept;
        var k :| 0 <= k < |front| && front[k] == kept[j];
      }
      assert ls == front + [l];
    }
  }

  lemma FenceKeepsUnique(st: State, id: u64)
    requires UniqueEvidence(st)
    ensures UniqueEvidence(Fence(st, id))
  {
    hide Without;
    if id in st.workers { WithoutKeepsUnique(st.workers[id].links, st.snap.links); }
  }

  lemma UniqueStep(cfg: Config, st: State, e: Event)
    requires UniqueEvidence(st) && Enabled(st, e)
    ensures UniqueEvidence(Step(cfg, st, e))
  {
    hide PutEndpoint, PutLink, Without, Fence, SubmitRequest, BeginCommit, AskBroker, EndCommit, Revalidate, Handoff,
      ExecutionResult, Cancel, Supersede;
    match e
    case ERegister(s, worker, boot) =>
    case EPublishEndpoint(_, worker, boot, endpoint) =>
      PutEndpointKeepsUnique(st.snap.endpoints, endpoint.(worker := worker, workerBoot := boot));
    case EPublishLink(_, worker, boot, link) => PutLinkKeepsUnique(st.snap.links, link.(workerBoot := boot));
    case EPublishCapacity(_, _, _, _, _) =>
    case EPublishCongestion(_, _, _, _, _) =>
    case EDisconnect(s) => if s in st.socketToWorker { FenceKeepsUnique(st, st.socketToWorker[s]); }
    case _ => PlanStepKeepsEvidence(cfg, st, e);
  }

  // ----- plans, commits and the broker -----

  /** What a submitted request adds, when it adds a plan. */
  ghost predicate AddsPlan(cfg: Config, st: State, req: Request) {
    AcceptsRequest(st, req) && Succeeds(req, st.snap, cfg.weights, cfg.bounds, st.ids)
  }

  lemma SubmittedPlan(cfg: Config, st: State, req: Request)
    requires AddsPlan(cfg, st, req)
    ensures var plan := ThePlan(req, st.snap, cfg.weights, cfg.bounds, st.ids);
      && SubmitRequest(cfg, st, req).plans == st.plans[plan.id := NewRecord(plan, st.snap.endpoints)]
      && plan.id == st.ids.plan && plan.requestId == req.id && plan.bound == st.snap.generations
      && Distinct(plan.requiredResourceClaims)
      && SubmitRequest(cfg, st, req).ids.plan == Next64(st.ids.plan)
  {
    hide PlanCommunication, NewRecord, Retained, AllRetainable, PathsOf, BoundEndpoints, BoundLinks, AllHops, Claims,
      EndpointMap, LinkMap;
    SuccessIsBuilt(req, st.snap, cfg.weights, cfg.bounds, st.ids);
    SuccessHasPlan(req, st.snap, cfg, st.ids);
    var plan := ThePlan(req, st.snap, cfg.weights, cfg.bounds, st.ids);
    ClaimsExact(ClaimedRelays(plan.shape, Retained(req, st.snap, cfg.weights, cfg.bounds)));
  }

  lemma SuccessHasPlan(req: Request, snap: Snapshot, cfg: Config, ids: Ids)
    requires Succeeds(req, snap, cfg.weights, cfg.bounds, ids)
    ensures PlanCommunication(req, snap, cfg.weights, cfg.bounds, ids).outcome.plan.Some?
    ensures PlanCommunication(req, snap, cfg.weights, cfg.bounds, ids).ids.plan == Next64(ids.plan)
  {
    hide RankedBetween, Chosen, PlanOver, MulticastReports, MulticastRanked, RejectedCollective, ReachablePrefix,
      Members;
  }

  lemma FailureAddsNothing(cfg: Config, st: State, req: Request)
    requires !AddsPlan(cfg, st, req)
    ensures SubmitRequest(cfg, st, req).plans == st.plans
    ensures SubmitRequest(cfg, st, req).ids.plan == st.ids.plan
      || SubmitRequest(cfg, st, req).ids.plan == Next64(st.ids.plan)
  {
    hide PlanCommunication, NewRecord;
    IdsAdvanceByOne(req, st.snap, cfg, st.ids);
  }

  lemma IdsAdvanceByOne(req: Request, snap: Snapshot, cfg: Config, ids: Ids)
    ensures var p := PlanCommunication(req, snap, cfg.weights, cfg.bounds, ids);
      p.Planned? ==> p.ids.plan == ids.plan || p.ids.plan == Next64(ids.plan)
  {
    hide RankedBetween, Chosen, PlanOver, MulticastReports, MulticastRanked, RejectedCollective, ReachablePrefix,
      Members;
  }

  /** Records are filed under their own id, and a plan that may be committed claims no resource twice. */
  ghost predicate PlansSound(st: State) {
    && (forall id :: id in st.plans ==>
          st.plans[id].plan.id == id
          && (Committable(st.plans[id].state) ==> Distinct(st.plans[id].plan.requiredResourceClaims)))
    && (forall s :: s in st.commits ==> Distinct(st.commits[s].claims))
    && st.broker.Within()
  }

  lemma SubmitKeepsPlansSound(cfg: Config, st: State, req: Request)
    requires PlansSound(st)
    ensures PlansSound(SubmitRequest(cfg, st, req))
  {
    hide PlanCommunication, AddsPlan, OwnerOf, Ledger.Within;
    if AddsPlan(cfg, st, req) { SubmittedPlan(cfg, st, req); } else { FailureAddsNothing(cfg, st, req); }
    SubmitTouchesOnlyPlans(cfg, st, req);
  }

  lemma ReleaseStaysWithin(l: Ledger, resources: seq<u64>)
    requires l.Within()
    ensures Release(l, resources).Within()
    ensures forall r :: r in resources ==> r !in Release(l, resources).held
  {
  }

  lemma AskKeepsPlansSound(st: State, s: Socket)
    requires PlansSound(st) && s in st.commits && st.commits[s].Asking?
    ensures PlansSound(AskBroker(st, s))
  {
    hide Acquire, Ledger.Within;
    var c := st.commits[s];
    DistinctClaimsStayWithin(st.broker, c.claims, Repeat(c.size, |c.claims|));
  }

  lemma EndKeepsBroker(st: State, s: Socket)
    requires st.broker.Within() && s in st.commits && st.commits[s].Answered?
    ensures EndCommit(st, s).broker.Within() && EndCommit(st, s).commits == st.commits - {s}
  {
    hide Release, Ledger.Within, EndCommit;
    EndCommitIsTame(st, s);
    ReleaseStaysWithin(st.broker, st.commits[s].claims);
  }

  lemma CancelKeepsBroker(st: State, request: u64, plan: u64)
    requires st.broker.Within()
    ensures Cancel(st, request, plan).broker.Within() && Cancel(st, request, plan).commits == st.commits
    ensures Supersede(st, request, plan).broker.Within() && Supersede(st, request, plan).commits == st.commits
  {
    hide Release, Ledger.Within;
    if plan in st.plans { ReleaseStaysWithin(st.broker, st.plans[plan].plan.requiredResourceClaims); }
  }

  lemma BeginKeepsPlansSound(st: State, s: Socket, plan: u64)
    requires PlansSound(st)
    ensures PlansSound(BeginCommit(st, s, plan))
  {
    hide Ledger.Within;
  }

  lemma TameKeepsPlansSound(st: State, after: State)
    requires PlansSound(st) && OnlyStates(st, after)
    requires after.broker.Within()
    requires forall s :: s in after.commits ==> s in st.commits && after.commits[s] == st.commits[s]
    ensures PlansSound(after)
  {
    hide Ledger.Within;
  }

  lemma PlansSoundStep(cfg: Config, st: State, e: Event)
    requires PlansSound(st) && Enabled(st, e)
    ensures PlansSound(Step(cfg, st, e))
  {
    hide SubmitRequest, BeginCommit, AskBroker, EndCommit, Cancel, Supersede, Revalidate, Handoff, ExecutionResult,
      Ledger.Within, OnlyStates;
    if !PlanStep(e) {
      EvidenceStepKeepsPlans(cfg, st, e);
    } else {
      if !e.ESubmitRequest? { PlanStepIsTame(cfg, st, e); }
      match e
      case ESubmitRequest(_, req) => SubmitKeepsPlansSound(cfg, st, req);
      case EBeginCommit(s, plan) => BeginKeepsPlansSound(st, s, plan);
      case EAskBroker(s) => AskKeepsPlansSound(st, s);
      case EEndCommit(s) =>
        EndKeepsBroker(st, s);
        TameKeepsPlansSound(st, EndCommit(st, s));
      case ECancel(_, requestId, plan) =>
        CancelKeepsBroker(st, requestId, plan);
        TameKeepsPlansSound(st, Cancel(st, requestId, plan));
      case ESupersede(_, requestId, plan) =>
        CancelKeepsBroker(st, requestId, plan);
        TameKeepsPlansSound(st, Supersede(st, requestId, plan));
      case ERevalidate(_, plan) =>
        RevalidationIsTame(st, plan);
        TameKeepsPlansSound(st, Revalidate(st, plan));
      case EHandoff(_, plan) =>
        RevalidationIsTame(st, plan);
        TameKeepsPlansSound(st, Handoff(st, plan));
      case EResult(_, plan, worker, boot, ok) =>
        ResultKeepsLedger(st, plan, worker, boot, ok);
        TameKeepsPlansSound(st, ExecutionResult(st, plan, worker, boot, ok));
    }
  }

  lemma ResultKeepsLedger(st: State, plan: u64, worker: u64, boot: u64, ok: bool)
    ensures var after := ExecutionResult(st, plan, worker, boot, ok);
      after.broker == st.broker && after.commits == st.commits && after.cancelled == st.cancelled
  {
    hide SetState, OnlyStates;
    if AcceptsResult(st, plan, worker, boot) { SetStateIsTame(st, plan, if ok then Completed else Failed); }
  }

  // ----- plan numbers: a commit in flight still speaks about its own plan -----

  ghost predicate Numbered(st: State) {
    && (forall id :: id in st.plans && Committable(st.plans[id].state) ==> id < st.ids.plan)
    && (forall s :: s in st.commits ==> InFlight(st, st.commits[s]))
  }

  ghost predicate InFlight(st: State, c: Commit) {
    && c.plan in st.plans && c.plan < st.ids.plan
    && c.claims == st.plans[c.plan].plan.requiredResourceClaims
  }

  lemma SubmitKeepsNumbered(cfg: Config, st: State, req: Request)
    requires Numbered(st) && st.ids.plan <= SubmitRequest(cfg, st, req).ids.plan
    ensures Numbered(SubmitRequest(cfg, st, req))
  {
    hide PlanCommunication, AddsPlan, NewRecord;
    var after := SubmitRequest(cfg, st, req);
    SubmitTouchesOnlyPlans(cfg, st, req);
    if AddsPlan(cfg, st, req) { SubmittedPlan(cfg, st, req); } else { FailureAddsNothing(cfg, st, req); }
    forall s | s in after.commits ensures InFlight(after, after.commits[s]) {
      assert InFlight(st, st.commits[s]);
    }
  }

  lemma TameKeepsNumbered(st: State, after: State)
    requires Numbered(st) && OnlyStates(st, after)
    requires forall s :: s in after.commits ==>
      InFlight(st, after.commits[s]) || (s in st.commits && after.commits[s].plan == st.commits[s].plan
                                           && after.commits[s].claims == st.commits[s].claims)
    ensures Numbered(after)
  {
    forall s | s in after.commits ensures InFlight(after, after.commits[s]) {
      if s in st.commits { assert InFlight(st, st.commits[s]); }
    }
  }

  lemma CommitsAfter(cfg: Config, st: State, e: Event)
    requires Enabled(st, e) && PlanStep(e) && !e.ESubmitRequest?
    ensures var after := Step(cfg, st, e);
      forall s :: s in after.commits ==>
        || (s in st.commits && after.commits[s].plan == st.commits[s].plan
            && after.commits[s].claims == st.commits[s].claims)
        || (e.EBeginCommit? && AcceptsCommit(st, e.plan) && s == e.sock && after.commits[s].plan == e.plan
            && after.commits[s].claims == st.plans[e.plan].plan.requiredResourceClaims)
  {
    hide Acquire, SubmitRequest, Revalidate, Handoff, EndCommit, Cancel, Supersede;
    match e
    case ERevalidate(_, plan) => RevalidationIsTame(st, plan);
    case EHandoff(_, plan) => RevalidationIsTame(st, plan);
    case EEndCommit(s) => EndCommitIsTame(st, s);
    case ECancel(_, requestId, plan) => CancelKeepsCommits(st, requestId, plan);
    case ESupersede(_, requestId, plan) => CancelKeepsCommits(st, requestId, plan);
    case _ =>
  }

  lemma CancelKeepsCommits(st: State, request: u64, plan: u64)
    ensures Cancel(st, request, plan).commits == Supersede(st, request, plan).commits == st.commits
    ensures Cancel(st, request, plan).cancelled == st.cancelled + {request}
    ensures Supersede(st, request, plan).cancelled == st.cancelled
  {
    hide Cancel, Freed, Supersede, SetState, OnlyStates, SameRecords;
    CancelInSteps(st, request, plan);
    if plan in st.plans { SetStateIsTame(Freed(st, request, plan), plan, Cancelled); }
    SupersedeIsTame(st, request, plan);
  }

  lemma NumberedStep(cfg: Config, st: State, e: Event)
    requires Numbered(st) && Enabled(st, e) && st.ids.plan <= Step(cfg, st, e).ids.plan
    ensures Numbered(Step(cfg, st, e))
    ensures st.ids.plan <= Step(cfg, st, e).ids.plan <= st.ids.plan + 1
  {
    hide SubmitRequest, BeginCommit, AskBroker, EndCommit, Cancel, Supersede, Revalidate, Handoff, ExecutionResult,
      AddsPlan;
    var after := Step(cfg, st, e);
    if !PlanStep(e) {
      EvidenceStepKeepsPlans(cfg, st, e);
      SameNumbered(st, after);
    } else if e.ESubmitRequest? {
      SubmitKeepsNumbered(cfg, st, e.request);
      if AddsPlan(cfg, st, e.request) {
        SubmittedPlan(cfg, st, e.request);
      } else {
        FailureAddsNothing(cfg, st, e.request);
      }
    } else {
      PlanStepIsTame(cfg, st, e);
      CommitsAfter(cfg, st, e);
      TameKeepsNumbered(st, after);
    }
  }

  lemma CounterStep(cfg: Config, st: State, e: Event)
    requires Enabled(st, e)
    ensures Step(cfg, st, e).ids.plan == st.ids.plan || Step(cfg, st, e).ids.plan == Next64(st.ids.plan)
  {
    hide SubmitRequest, BeginCommit, AskBroker, EndCommit, Cancel, Supersede, Revalidate, Handoff, ExecutionResult,
      AddsPlan;
    if !PlanStep(e) {
      EvidenceStepKeepsPlans(cfg, st, e);
    } else if e.ESubmitRequest? {
      if AddsPlan(cfg, st, e.request) {
        SubmittedPlan(cfg, st, e.request);
      } else {
        FailureAddsNothing(cfg, st, e.request);
      }
    } else {
      PlanStepIsTame(cfg, st, e);
    }
  }

  /** A plan that takes the last number ends the numbering: the condition of `NumberedStep` cannot be dropped. */
  lemma LastNumberEndsNumbering(cfg: Config, st: State, req: Request)
    requires AddsPlan(cfg, st, req) && st.ids.plan == TWO64 - 1
    ensures !Numbered(SubmitRequest(cfg, st, req))
  {
    hide AddsPlan, SubmitRequest, Adopt, OwnerOf;
    SubmittedPlan(cfg, st, req);
    var after := SubmitRequest(cfg, st, req);
    assert st.ids.plan in after.plans && Committable(after.plans[st.ids.plan].state);
  }

  lemma SameNumbered(st: State, after: State)
    requires Numbered(st) && after.plans == st.plans && after.commits == st.commits && after.ids == st.ids
    ensures Numbered(after)
  {
    forall s | s in after.commits ensures InFlight(after, after.commits[s]) {
      assert InFlight(st, st.commits[s]);
    }
  }
}
