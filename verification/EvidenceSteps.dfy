/** What a step does to the evidence: which generations it moves, and what it never touches. */
module EvidenceSteps {
  import opened Core
  import opened Model
  import opened Coordinator
  import opened CoordinatorInvariants
  import opened CoordinatorRuns

  predicate MovesTopology(st: State, e: Event) {
    || (e.EPublishLink? && Authorized(st, e.worker, e.boot))
    || (e.EDisconnect? && e.sock in st.socketToWorker && st.socketToWorker[e.sock] in st.workers)
  }

  predicate MovesCapacity(st: State, e: Event) { e.EPublishCapacity? && AcceptsEvidence(st, e.worker, e.boot) }

  predicate MovesCongestion(st: State, e: Event) { e.EPublishCongestion? && AcceptsEvidence(st, e.worker, e.boot) }

  function NextGenerations(st: State, e: Event): Generations {
    var g := st.snap.generations;
    g.(topology := if MovesTopology(st, e) then Next64(g.topology) else g.topology,
       capacity := if MovesCapacity(st, e) then Next64(g.capacity) else g.capacity,
       congestion := if MovesCongestion(st, e) then Next64(g.congestion) else g.congestion)
  }

  /** Apart from the generations, endpoints, links and boots, the snapshot stays what it was. */
  ghost predicate Evolves(s: Snapshot, g: Generations, after: Snapshot) {
    after == s.(generations := g, endpoints := after.endpoints, links := after.links,
                workerBoots := after.workerBoots, sourceBoots := after.sourceBoots)
  }

  lemma RegisterEvolves(st: State, s: Socket, worker: u64, boot: u64)
    ensures Evolves(st.snap, st.snap.generations, Register(st, s, worker, boot).snap)
  {
  }

  lemma EndpointEvolves(st: State, worker: u64, boot: u64, endpoint: Endpoint)
    ensures Evolves(st.snap, st.snap.generations, PublishEndpoint(st, worker, boot, endpoint).snap)
  {
    hide PutEndpoint;
  }

  lemma LinkEvolves(st: State, worker: u64, boot: u64, link: Link)
    ensures var g := st.snap.generations;
      Evolves(st.snap, g.(topology := if Authorized(st, worker, boot) then Next64(g.topology) else g.topology),
              PublishLink(st, worker, boot, link).snap)
  {
    hide PutLink;
  }

  lemma CapacityEvolves(st: State, worker: u64, boot: u64, link: u64, capacity: Capacity)
    ensures var g := st.snap.generations;
      Evolves(st.snap, g.(capacity := if AcceptsEvidence(st, worker, boot) then Next64(g.capacity) else g.capacity),
              PublishCapacity(st, worker, boot, link, capacity).snap)
  {
    hide MapLinks;
  }

  lemma CongestionEvolves(st: State, worker: u64, boot: u64, link: u64, congestion: Congestion)
    ensures var g := st.snap.generations;
      var next := if AcceptsEvidence(st, worker, boot) then Next64(g.congestion) else g.congestion;
      Evolves(st.snap, g.(congestion := next),
              PublishCongestion(st, worker, boot, link, congestion).snap)
  {
    hide MapLinks;
  }

  lemma FenceEvolves(st: State, id: u64)
    ensures var g := st.snap.generations;
      Evolves(st.snap, g.(topology := if id in st.workers then Next64(g.topology) else g.topology), Fence(st, id).snap)
  {
    hide Disable, Without;
  }

  /** Every step, exactly. */
  lemma StepEvolves(cfg: Config, st: State, e: Event)
    requires Enabled(st, e)
    ensures Evolves(st.snap, NextGenerations(st, e), Step(cfg, st, e).snap)
  {
    hide Fence, SubmitRequest, BeginCommit, AskBroker, EndCommit, Revalidate, Handoff, ExecutionResult, Cancel,
      Supersede, Register, PublishEndpoint, PublishLink, PublishCapacity, PublishCongestion;
    if PlanStep(e) {
      PlanStepKeepsEvidence(cfg, st, e);
      return;
    }
    match e
    case ERegister(s, worker, boot) => RegisterEvolves(st, s, worker, boot);
    case EPublishEndpoint(_, worker, boot, endpoint) => EndpointEvolves(st, worker, boot, endpoint);
    case EPublishLink(_, worker, boot, link) => LinkEvolves(st, worker, boot, link);
    case EPublishCapacity(_, worker, boot, linkId, capacity) => CapacityEvolves(st, worker, boot, linkId, capacity);
    case EPublishCongestion(_, worker, boot, linkId, congestion) =>
      CongestionEvolves(st, worker, boot, linkId, congestion);
    case EDisconnect(s) => if s in st.socketToWorker { FenceEvolves(st, st.socketToWorker[s]); }
  }

  // ----- what no run ever changes -----

  /** No resource is ever offered, nothing is ever reserved, and the other generations stay where they began. */
  ghost predicate Unattended(snap: Snapshot) {
    && snap.resourceCapacities == [] && snap.reservations == [] && snap.policyGeneration == 1
    && snap.generations.reservation == 1
  }

  lemma {:induction false} RunsAreUnattended(cfg: Config, r: Run, i: nat)
    requires IsRun(cfg, r) && i < |r.states|
    ensures Unattended(r.states[i].snap)
    decreases i
  {
    hide Initial, Step, NextGenerations;
    if i == 0 {
      InitialSnapshot(r.states[0]);
    } else {
      RunsAreUnattended(cfg, r, i - 1);
      StepEvolves(cfg, r.states[i - 1], r.events[i - 1]);
      OnlyThreeMove(r.states[i - 1], r.events[i - 1]);
    }
  }

  lemma OnlyThreeMove(st: State, e: Event)
    ensures NextGenerations(st, e).reservation == st.snap.generations.reservation
  {
  }
}
