/** The coordinator object of src/coordinator.cpp. Each method is one critical section of a handler and
    computes the step the state machine gives for it. */
module CoordinatorCode {
  import opened Core
  import opened Model
  import opened Planner
  import opened PlanFacts
  import opened PlannerCode
  import opened Revalidation
  import opened Broker
  import opened StoreCodec
  import opened StoreValidity
  import opened StoreFormat
  import opened StoreReader
  import opened StoreTheorems
  import opened Coordinator
  import opened CoordinatorRuns

  // ----- how the loops relate to the steps -----

  lemma DisableOneMore(ids: seq<u64>, i: nat, es: seq<Endpoint>)
    requires i < |ids|
    ensures Disable([ids[i]], Disable(ids[..i], es)) == Disable(ids[..i + 1], es)
  {
    assert ids[..i + 1] == ids[..i] + [ids[i]];
  }

  lemma DisableNone(es: seq<Endpoint>)
    ensures Disable([], es) == es
  {
  }

  lemma {:induction false} PutEndpointReplaces(xs: seq<Endpoint>, i: nat, e: Endpoint)
    requires i < |xs| && xs[i].id == e.id && forall j :: 0 <= j < i ==> xs[j].id != e.id
    ensures PutEndpoint(xs, e) == xs[i := e]
  {
    if i > 0 { PutEndpointReplaces(xs[1..], i - 1, e); }
  }

  lemma {:induction false} PutEndpointAdds(xs: seq<Endpoint>, e: Endpoint)
    requires forall j :: 0 <= j < |xs| ==> xs[j].id != e.id
    ensures PutEndpoint(xs, e) == xs + [e]
  {
    if xs != [] { PutEndpointAdds(xs[1..], e); }
  }

  lemma {:induction false} PutLinkReplaces(xs: seq<Link>, i: nat, l: Link)
    requires i < |xs| && xs[i].id == l.id && forall j :: 0 <= j < i ==> xs[j].id != l.id
    ensures PutLink(xs, l) == xs[i := l]
  {
    if i > 0 { PutLinkReplaces(xs[1..], i - 1, l); }
  }

  lemma {:induction false} PutLinkAdds(xs: seq<Link>, l: Link)
    requires forall j :: 0 <= j < |xs| ==> xs[j].id != l.id
    ensures PutLink(xs, l) == xs + [l]
  {
    if xs != [] { PutLinkAdds(xs[1..], l); }
  }

  class CoordinatorServer {
    const cfg: Config
    const broker: MemoryResourceBroker
    var snap: Snapshot
    var plans: map<u64, PlanRecord>
    var currentByRequest: map<u64, u64>
    var cancelled: set<u64>
    var supersessions: seq<(u64, u64)>
    var requests: seq<Request>
    var socketToWorker: map<Socket, u64>
    var workers: map<u64, Worker>
    var fenced: set<(u64, u64)>
    /** What each connection's thread remembers between the two locked phases of a commit. */
    var commits: map<Socket, Commit>
    /** The process-wide counters that number plans, paths and stages. */
    var ids: Ids
    var crashed: bool

    ghost function View(): State
      reads this, broker
    {
      State(snap, broker.View(), plans, currentByRequest, cancelled, supersessions, requests, socketToWorker, workers,
            fenced, commits, ids, crashed)
    }

    constructor (cfg: Config)
      ensures View() == EMPTY_STATE && this.cfg == cfg && fresh(broker)
    {
      this.cfg := cfg;
      broker := new MemoryResourceBroker(0x4000_0000);
      snap := Snapshot(FIRST, 1, [], [], [], [], map[], map[], 1);
      plans, currentByRequest, cancelled, supersessions, requests := map[], map[], {}, [], [];
      socketToWorker, workers, fenced, commits := map[], map[], {}, map[];
      ids, crashed := Ids(1, 1, 1), false;
    }

    // ----- starting -----

    method LoadRecord(rec: Record)
      modifies this`plans, this`currentByRequest
      ensures View() == old(View()).(
                          plans := old(plans)[rec.plan.id := PlanRecord(LoadedPlan(rec.plan), rec.state, 0, 0)],
                                     currentByRequest := old(currentByRequest)[rec.plan.requestId := rec.plan.id])
    {
      plans := plans[rec.plan.id := PlanRecord(LoadedPlan(rec.plan), rec.state, 0, 0)];
      currentByRequest := currentByRequest[rec.plan.requestId := rec.plan.id];
    }

    method LoadAll(recs: seq<Record>)
      requires View() == EMPTY_STATE
      modifies this`plans, this`currentByRequest
      ensures View() == LoadRecords(EMPTY_STATE, recs)
    {
      hide LoadedPlan;
      for i := 0 to |recs|
        invariant View() == LoadRecords(EMPTY_STATE, recs[..i])
      {
        assert recs[..i + 1][..i] == recs[..i];
        LoadRecord(recs[i]);
      }
      assert recs[..|recs|] == recs;
    }

    /** `loadStoreIfAny`: whatever the file holds, the coordinator starts in an initial state. */
    method LoadStoreIfAny(data: Bytes)
      requires View() == EMPTY_STATE
      modifies this
      ensures View() == if Parse(data).Parsed? then Load(Parse(data).store) else EMPTY_STATE
      ensures Initial(View())
    {
      hide Parse, LoadedPlan, StoreValid, StoreFits, LoadRecords, Recovered;
      var parsed := ParseStore(data);
      if parsed.Refused? { return; }
      AcceptedIsValid(data);
      var store := parsed.store;
      var recs := new Record[|store.plans|](i requires 0 <= i < |store.plans| => store.plans[i]);
      assert recs[..] == store.plans;
      ConservativeRecovery(recs);
      LoadAll(recs[..]);
      supersessions, requests := store.supersessions, store.requests;
      LoadedSnap(Recovered(store.plans));
      snap := snap.(epoch := Next64(store.epoch));
    }

    // ----- evidence -----

    method ReplaceEndpoint(e: Endpoint)
      modifies this`snap
      ensures snap == old(snap).(endpoints := PutEndpoint(old(snap).endpoints, e))
    {
      hide PutEndpoint;
      var es := snap.endpoints;
      for i := 0 to |es|
        invariant snap == old(snap) && forall j :: 0 <= j < i ==> es[j].id != e.id
      {
        if es[i].id == e.id {
          PutEndpointReplaces(es, i, e);
          snap := snap.(endpoints := es[i := e]);
          return;
        }
      }
      PutEndpointAdds(es, e);
      snap := snap.(endpoints := es + [e]);
    }

    method ReplaceLink(l: Link)
      modifies this`snap
      ensures snap == old(snap).(links := PutLink(old(snap).links, l),
        generations := old(snap).generations.(topology := Next64(old(snap).generations.topology)))
    {
      hide PutLink;
      var ls := snap.links;
      var i := 0;
      while i < |ls| && ls[i].id != l.id
        invariant i <= |ls| && snap == old(snap) && forall j :: 0 <= j < i ==> ls[j].id != l.id
      {
        i := i + 1;
      }
      if i < |ls| {
        PutLinkReplaces(ls, i, l);
        snap := snap.(links := ls[i := l]);
      } else {
        PutLinkAdds(ls, l);
        snap := snap.(links := ls + [l]);
      }
      snap := snap.(generations := snap.generations.(topology := Next64(snap.generations.topology)));
    }

    method DisableEndpoint(id: u64)
      modifies this`snap
      ensures snap == old(snap).(endpoints := Disable([id], old(snap).endpoints))
    {
      ghost var es := snap.endpoints;
      for i := 0 to |snap.endpoints|
        invariant |snap.endpoints| == |es| && snap == old(snap).(endpoints := snap.endpoints)
        invariant forall j :: 0 <= j < i ==> snap.endpoints[j] == Disable([id], es)[j]
        invariant forall j :: i <= j < |es| ==> snap.endpoints[j] == es[j]
      {
        var e := snap.endpoints[i];
        if e.id == id {
          snap := snap.(endpoints := snap.endpoints[i := e.(reachable := false, ready := false)]);
        }
      }
      assert snap.endpoints == Disable([id], es);
    }

    method RemoveLinks(ids: seq<u64>)
      modifies this`snap
      ensures snap == old(snap).(links := Without(ids, old(snap).links))
    {
      var ls, kept := snap.links, [];
      for i := 0 to |ls|
        invariant snap == old(snap) && kept == Without(ids, ls[..i])
      {
        assert ls[..i + 1][..i] == ls[..i];
        if ls[i].id !in ids { kept := kept + [ls[i]]; }
      }
      assert ls[..|ls|] == ls;
      snap := snap.(links := kept);
    }

    method FenceWorker(id: u64)
      modifies this`snap, this`fenced, this`workers
      ensures View() == Fence(old(View()), id)
    {
      hide Disable, Without;
      snap := snap.(workerBoots := snap.workerBoots - {id}, sourceBoots := snap.sourceBoots - {id});
      if id !in workers { return; }
      var w := workers[id];
      fenced := fenced + {(id, w.boot)};
      workers := workers[id := w.(alive := false)];
      ghost var before := snap;
      DisableNone(snap.endpoints);
      assert w.endpoints[..0] == [];
      for i := 0 to |w.endpoints|
        invariant snap == before.(endpoints := Disable(w.endpoints[..i], before.endpoints))
        invariant fenced == old(fenced) + {(id, w.boot)} && workers == old(workers)[id := w.(alive := false)]
      {
        DisableOneMore(w.endpoints, i, before.endpoints);
        DisableEndpoint(w.endpoints[i]);
      }
      assert w.endpoints[..|w.endpoints|] == w.endpoints;
      RemoveLinks(w.links);
      snap := snap.(generations := snap.generations.(topology := Next64(snap.generations.topology)));
    }

    method UpdateCapacity(link: u64, capacity: Capacity)
      modifies this`snap
      ensures snap == old(snap).(links :=
                MapLinks((l: Link) => if l.id == link then l.(capacityEvidence := capacity) else l, old(snap).links))
    {
      ghost var f := (l: Link) => if l.id == link then l.(capacityEvidence := capacity) else l;
      ghost var ls := snap.links;
      for i := 0 to |snap.links|
        invariant |snap.links| == |ls| && snap == old(snap).(links := snap.links)
        invariant forall j :: 0 <= j < i ==> snap.links[j] == f(ls[j])
        invariant forall j :: i <= j < |ls| ==> snap.links[j] == ls[j]
      {
        var l := snap.links[i];
        if l.id == link { snap := snap.(links := snap.links[i := l.(capacityEvidence := capacity)]); }
      }
      assert snap.links == MapLinks(f, ls);
    }

    method UpdateCongestion(link: u64, congestion: Congestion)
      modifies this`snap
      ensures snap == old(snap).(links :=
                MapLinks((l: Link) => if l.id == link then l.(congestion := congestion) else l, old(snap).links))
    {
      ghost var f := (l: Link) => if l.id == link then l.(congestion := congestion) else l;
      ghost var ls := snap.links;
      for i := 0 to |snap.links|
        invariant |snap.links| == |ls| && snap == old(snap).(links := snap.links)
        invariant forall j :: 0 <= j < i ==> snap.links[j] == f(ls[j])
        invariant forall j :: i <= j < |ls| ==> snap.links[j] == ls[j]
      {
        var l := snap.links[i];
        if l.id == link { snap := snap.(links := snap.links[i := l.(congestion := congestion)]); }
      }
      assert snap.links == MapLinks(f, ls);
    }

    // ----- handlers -----

    method HandleRegister(s: Socket, worker: u64, boot: u64) returns (ok: bool)
      modifies this
      ensures View() == Register(old(View()), s, worker, boot) && ok == AcceptsRegister(old(View()), worker, boot)
    {
      if worker == 0 || boot == 0 { return false; }
      if (worker, boot) in fenced { return false; }
      workers := workers[worker := Worker(boot, s, [], [], true)];
      socketToWorker := socketToWorker[s := worker];
      snap := snap.(workerBoots := snap.workerBoots[worker := boot], sourceBoots := snap.sourceBoots[worker := boot]);
      return true;
    }

    method HandlePublishEndpoint(worker: u64, boot: u64, endpoint: Endpoint) returns (ok: bool)
      modifies this
      ensures View() == PublishEndpoint(old(View()), worker, boot, endpoint)
        && ok == Authorized(old(View()), worker, boot)
    {
      hide PutEndpoint;
      if worker !in workers || !workers[worker].alive || workers[worker].boot != boot { return false; }
      var e := endpoint.(worker := worker, workerBoot := boot);
      ReplaceEndpoint(e);
      workers := workers[worker := workers[worker].(endpoints := workers[worker].endpoints + [e.id])];
      return true;
    }

    method HandlePublishLink(worker: u64, boot: u64, link: Link) returns (ok: bool)
      modifies this
      ensures View() == PublishLink(old(View()), worker, boot, link) && ok == Authorized(old(View()), worker, boot)
    {
      hide PutLink;
      if worker !in workers || !workers[worker].alive || workers[worker].boot != boot { return false; }
      var l := link.(workerBoot := boot);
      ReplaceLink(l);
      workers := workers[worker := workers[worker].(links := workers[worker].links + [l.id])];
      return true;
    }

    method HandlePublishCapacity(worker: u64, boot: u64, link: u64, capacity: Capacity) returns (ok: bool)
      modifies this
      ensures View() == PublishCapacity(old(View()), worker, boot, link, capacity)
      ensures ok == AcceptsEvidence(old(View()), worker, boot)
    {
      if worker != 0 {
        if worker !in workers || !workers[worker].alive || workers[worker].boot != boot { return false; }
      }
      snap := snap.(generations := snap.generations.(capacity := Next64(snap.generations.capacity)));
      UpdateCapacity(link, capacity);
      assert snap.links == PublishCapacity(old(View()), worker, boot, link, capacity).snap.links;
      return true;
    }

    method HandlePublishCongestion(worker: u64, boot: u64, link: u64, congestion: Congestion) returns (ok: bool)
      modifies this
      ensures View() == PublishCongestion(old(View()), worker, boot, link, congestion)
      ensures ok == AcceptsEvidence(old(View()), worker, boot)
    {
      if worker != 0 {
        if worker !in workers || !workers[worker].alive || workers[worker].boot != boot { return false; }
      }
      snap := snap.(generations := snap.generations.(congestion := Next64(snap.generations.congestion)));
      UpdateCongestion(link, congestion);
      assert snap.links == PublishCongestion(old(View()), worker, boot, link, congestion).snap.links;
      return true;
    }

    method FindOwner(id: u64) returns (owner: (u64, u64))
      ensures owner == OwnerOf(snap.endpoints, id)
    {
      var es := snap.endpoints;
      for i := 0 to |es|
        invariant OwnerOf(es, id) == OwnerOf(es[i..], id)
      {
        assert es[i..][0] == es[i] && es[i..][1..] == es[i + 1..];
        if es[i].id == id { return (es[i].worker, es[i].workerBoot); }
      }
      return (0, 0);
    }

    method HandleSubmitRequest(req: Request) returns (feasible: bool)
      modifies this
      ensures View() == SubmitRequest(cfg, old(View()), req)
      ensures feasible <==> AcceptsRequest(old(View()), req) && Succeeds(req, snap, cfg.weights, cfg.bounds, old(ids))
    {
      hide PlanCommunication, OwnerOf;
      if req.id == 0 { return false; }
      if req.id in cancelled { return false; }
      requests := requests + [req];
      var p := PlanRequest(req, snap, cfg.weights, cfg.bounds, ids);
      if p.Threw? { crashed := true; return false; }
      ids := p.ids;
      feasible := p.outcome.success;
      if feasible && p.outcome.plan.Some? {
        var plan := p.outcome.plan.value;
        var rec := PlanRecord(plan, PlanReady, 0, 0);
        if plan.orderedStages != [] {
          var owner := FindOwner(plan.orderedStages[0].source);
          rec := rec.(worker := owner.0, boot := owner.1);
        }
        plans := plans[plan.id := rec];
        currentByRequest := currentByRequest[req.id := plan.id];
      }
    }

    method SetPlanState(plan: u64, s: PlanState)
      requires plan in plans
      modifies this`plans
      ensures View() == SetState(old(View()), plan, s)
    {
      plans := plans[plan := plans[plan].(state := s)];
    }

    /** First locked phase of a commit. */
    method BeginCommitOn(s: Socket, plan: u64) returns (ok: bool)
      requires s !in commits
      modifies this`plans, this`commits
      ensures View() == BeginCommit(old(View()), s, plan) && ok == AcceptsCommit(old(View()), plan)
    {
      if plan !in plans { return false; }
      var rec := plans[plan];
      if !rec.state.PlanReady? && !rec.state.AwaitingResourceCommit? { return false; }
      if rec.plan.requestId in cancelled { return false; }
      SetPlanState(plan, AwaitingResourceCommit);
      var size := if rec.plan.orderedStages == [] then 1024 else rec.plan.orderedStages[0].payload;
      commits := commits[s := Asking(plan, rec.plan.requiredResourceClaims, size)];
      return true;
    }

    /** The acquisition, made without holding the lock. */
    method AcquireFor(s: Socket)
      requires s in commits && commits[s].Asking?
      modifies this`commits, broker
      ensures View() == AskBroker(old(View()), s)
    {
      hide Acquire;
      var c := commits[s];
      var sizes: seq<u64> := [];
      for i := 0 to |c.claims|
        invariant sizes == Repeat(c.size, i)
      {
        sizes := sizes + [c.size];
      }
      var ok := broker.TryAcquire(c.claims, sizes);
      commits := commits[s := Answered(c.plan, c.claims, ok)];
    }

    /** Second locked phase. */
    method EndCommitOn(s: Socket) returns (ok: bool)
      requires s in commits && commits[s].Answered?
      modifies this`plans, this`commits, broker
      ensures View() == EndCommit(old(View()), s)
      ensures ok <==> old(commits[s]).plan in old(plans) && plans[old(commits[s]).plan].state.Committed?
    {
      hide Release;
      var c := commits[s];
      commits := commits - {s};
      if c.plan !in plans {
        if c.acquired { broker.Free(c.claims); }
        return false;
      }
      var rec := plans[c.plan];
      if rec.plan.requestId in cancelled || rec.state.Cancelled? || rec.state.Superseded? || rec.state.Retired? {
        if c.acquired { broker.Free(c.claims); }
        SetPlanState(c.plan, Cancelled);
        return false;
      }
      if !c.acquired {
        SetPlanState(c.plan, Failed);
        return false;
      }
      SetPlanState(c.plan, Committed);
      return true;
    }

    method HandleRevalidate(plan: u64) returns (current: bool)
      modifies this`plans
      ensures View() == Revalidate(old(View()), plan)
      ensures current <==> plan in old(plans) && Revalidates(old(plans)[plan].plan, snap)
    {
      hide PlanVerdict, Revalidates;
      if plan !in plans { return false; }
      var v := RevalidatePlan(plans[plan].plan, snap);
      PlanVerdictDecides(plans[plan].plan, snap);
      SetPlanState(plan, if v.None? then AwaitingExecution else RevalidationRequired);
      return v.None?;
    }

    method HandleHandoff(plan: u64) returns (ok: bool)
      modifies this`plans
      ensures View() == Handoff(old(View()), plan)
      ensures ok <==> plan in old(plans) && Revalidates(old(plans)[plan].plan, snap)
    {
      hide PlanVerdict, Revalidates;
      if plan !in plans { return false; }
      var v := RevalidatePlan(plans[plan].plan, snap);
      PlanVerdictDecides(plans[plan].plan, snap);
      SetPlanState(plan, if v.None? then Active else RevalidationRequired);
      return v.None?;
    }

    method HandleResult(plan: u64, worker: u64, boot: u64, success: bool) returns (ok: bool)
      modifies this`plans
      ensures View() == ExecutionResult(old(View()), plan, worker, boot, success)
      ensures ok == AcceptsResult(old(View()), plan, worker, boot)
    {
      if plan !in plans || !plans[plan].state.Active? { return false; }
      if worker != 0 {
        if plans[plan].worker != worker || plans[plan].boot != boot { return false; }
      }
      SetPlanState(plan, if success then Completed else Failed);
      return true;
    }

    method HandleCancel(request: u64, plan: u64)
      modifies this`cancelled, this`plans, broker
      ensures View() == Cancel(old(View()), request, plan)
    {
      hide Release;
      cancelled := cancelled + {request};
      if plan in plans {
        var rec := plans[plan];
        if rec.state.Committed? || rec.state.AwaitingExecution? || rec.state.Active?
           || rec.state.AwaitingResourceCommit? {
          broker.Free(rec.plan.requiredResourceClaims);
        }
        if !rec.state.Completed? && !rec.state.Cancelled? { SetPlanState(plan, Cancelled); }
      }
    }

    method HandleSupersede(request: u64, plan: u64)
      modifies this`plans, this`supersessions, broker
      ensures View() == Supersede(old(View()), request, plan)
    {
      hide Release;
      if plan in plans && !plans[plan].state.Completed? && !plans[plan].state.Cancelled? {
        SetPlanState(plan, Superseded);
        broker.Free(plans[plan].plan.requiredResourceClaims);
      }
      if request in currentByRequest && currentByRequest[request] != plan {
        var older := currentByRequest[request];
        if older in plans {
          SetPlanState(older, Superseded);
          supersessions := supersessions + [(older, plan)];
        }
      }
    }

    method HandleDisconnect(s: Socket)
      modifies this
      ensures View() == Disconnect(old(View()), s)
    {
      hide Fence;
      if s in socketToWorker {
        FenceWorker(socketToWorker[s]);
        FenceKeepsSockets(old(View()), old(socketToWorker)[s]);
        socketToWorker := socketToWorker - {s};
      }
    }

    /** `handleMessage`, with the three parts of a commit as separate events: one step of the machine. So
        the object keeps, between any two events, everything the machine's runs keep. */
    method Handle(e: Event)
      requires Enabled(View(), e)
      modifies this, broker
      ensures View() == Step(cfg, old(View()), e)
      ensures old(Sound(View())) ==> Sound(View())
    {
      hide Register, PublishEndpoint, PublishLink, PublishCapacity, PublishCongestion, SubmitRequest, BeginCommit,
        AskBroker, EndCommit, Revalidate, Handoff, ExecutionResult, Cancel, Supersede, Disconnect, Sound, Revalidates,
        Succeeds, AcceptsRegister, Authorized, AcceptsEvidence, AcceptsRequest, AcceptsCommit, AcceptsResult;
      ghost var before := View();
      match e {
        case ERegister(s, worker, boot) => var _ := HandleRegister(s, worker, boot);
        case EPublishEndpoint(_, worker, boot, endpoint) => var _ := HandlePublishEndpoint(worker, boot, endpoint);
        case EPublishLink(_, worker, boot, link) => var _ := HandlePublishLink(worker, boot, link);
        case EPublishCapacity(_, worker, boot, linkId, capacity) =>
          var _ := HandlePublishCapacity(worker, boot, linkId, capacity);
        case EPublishCongestion(_, worker, boot, linkId, congestion) =>
          var _ := HandlePublishCongestion(worker, boot, linkId, congestion);
        case ESubmitRequest(_, request) => var _ := HandleSubmitRequest(request);
        case EBeginCommit(s, plan) => var _ := BeginCommitOn(s, plan);
        case EAskBroker(s) => AcquireFor(s);
        case EEndCommit(s) => var _ := EndCommitOn(s);
        case ERevalidate(_, plan) => var _ := HandleRevalidate(plan);
        case EHandoff(_, plan) => var _ := HandleHandoff(plan);
        case EResult(_, plan, worker, boot, ok) => var _ := HandleResult(plan, worker, boot, ok);
        case ECancel(_, requestId, plan) => HandleCancel(requestId, plan);
        case ESupersede(_, requestId, plan) => HandleSupersede(requestId, plan);
        case EDisconnect(s) => HandleDisconnect(s);
      }
      if Sound(before) { StepKeepsSound(cfg, before, e); }
    }
  }

  lemma {:induction false} LoadedSnap(recs: seq<Record>)
    ensures LoadRecords(EMPTY_STATE, recs).snap == EMPTY_STATE.snap
  {
    hide LoadedPlan;
    if recs != [] { LoadedSnap(recs[..|recs| - 1]); }
  }

  lemma FenceKeepsSockets(st: State, id: u64)
    ensures Fence(st, id).socketToWorker == st.socketToWorker
  {
    hide Disable, Without;
  }
}
